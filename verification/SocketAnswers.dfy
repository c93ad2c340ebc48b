/** What every event does to the socket map, told by the entry it finds and by what libsrt answers:
    who is looked at, what each entry becomes, which connects are answered and how, and what stays. */
module SocketAnswers {
  import opened SrtTypes
  import opened HookTrace
  import opened SocketMap

  ghost predicate IsDead(s: SocketStatus) {
    s == SocketStatus.Broken || s == Closing || s == Closed || s == NonExist
  }

  /** `e` once it has `status`: dead, it has no receive channel, and no send channel if it was live. */
  ghost function Turned(e: Entry, status: SocketStatus): Entry {
    if !IsDead(status) then e.(status := status)
    else if e.status == Connected || e.status == Connecting then e.(status := status, recvTx := false, sendRx := false)
    else e.(status := status, recvTx := false)
  }

  /** Only the entries and the answers given changed. */
  ghost predicate SameLib(io: Io, t: Io) {
    t.lib == io.lib && t.acts == io.acts && t.registered == io.registered && t.issued == io.issued
  }

  ghost predicate SameAnswers(io: Io, t: Io) { t.answered == io.answered && t.accepted == io.accepted }

  /** Only the entry of `id` changed, or came: to `e`. */
  ghost predicate Becomes(io: Io, t: Io, id: SocketId, e: Entry) {
    && id in t.sockets && t.sockets[id] == e
    && (forall x | x != id :: x in t.sockets <==> x in io.sockets)
    && (forall x | x != id && x in io.sockets :: t.sockets[x] == io.sockets[x])
  }

  ghost predicate Answers(io: Io, t: Io, reply: Reply, ok: bool) {
    t.answered == io.answered + [reply] && t.accepted == if ok then io.accepted + {reply} else io.accepted
  }

  lemma TurnedIs(e: Entry, status: SocketStatus)
    ensures UpdateStatus(e, status) == Turned(e, status)
  {
  }

  // ── The state poll ──

  ghost function Reading(readings: map<SocketId, SocketStatus>, id: SocketId): SocketStatus {
    if id in readings then readings[id] else NonExist
  }

  /** The poll finds news of `id`: it is polled, is no group still waiting for its connect, and
      libsrt reads another state than the stored one. */
  ghost predicate IsNews(io: Io, order: seq<SocketId>, readings: map<SocketId, SocketStatus>, id: SocketId) {
    && id in order && id in io.sockets
    && !(io.sockets[id].isGroup && io.sockets[id].status == Init)
    && io.sockets[id].status != Reading(readings, id)
  }

  /** And the news end the connect that waits as `r`. */
  ghost predicate Ends(io: Io, order: seq<SocketId>, readings: map<SocketId, SocketStatus>, id: SocketId, r: Reply) {
    && IsNews(io, order, readings, id) && Reading(readings, id) in {SocketStatus.Broken, Closed}
    && io.sockets[id].reply == Some(r)
  }

  /** What the poll makes of an entry it reads `status` of. */
  ghost function Polled(e: Entry, status: SocketStatus): Entry {
    if (e.isGroup && e.status == Init) || e.status == status then e
    else if status == SocketStatus.Broken || status == Closed then Turned(e, status).(reply := None)
    else Turned(e, status)
  }

  /** A poll stores what libsrt reads of each socket, takes the channels of one newly dead, answers
      with an error the connect of one newly Broken or Closed, and changes nothing else. */
  lemma PollsExactly(io: Io, order: seq<SocketId>, readings: map<SocketId, SocketStatus>)
    ensures var t := Happen(io, Poll(order, readings));
            && SameLib(io, t) && t.accepted == io.accepted && t.sockets.Keys == io.sockets.Keys
            && (forall id | id in io.sockets ::
                  t.sockets[id] ==
                  if !IsNews(io, order, readings, id) then io.sockets[id]
                  else
                    var e := Turned(io.sockets[id], Reading(readings, id));
                    if Reading(readings, id) in {SocketStatus.Broken, Closed} then e.(reply := None) else e)
            && (forall r :: r in t.answered <==>
                  r in io.answered || exists id :: Ends(io, order, readings, id, r))
  {
    PollEntries(io, order, readings);
    hide PollAll, Turned;
    forall r
      ensures r in PollAll(io, order, readings).answered <==>
              r in io.answered || exists id :: Ends(io, order, readings, id, r)
    {
      PollAnswers(io, order, readings, r);
      assert forall id :: Ends(io, order, readings, id, r) <==>
                          id in order && id in io.sockets && Hears(io.sockets[id], Reading(readings, id), r);
    }
  }

  /** The same of one entry. */
  ghost predicate Hears(e: Entry, status: SocketStatus, r: Reply) {
    && !(e.isGroup && e.status == Init) && e.status != status
    && status in {SocketStatus.Broken, Closed} && e.reply == Some(r)
  }

  lemma PollsOne(io: Io, id: SocketId, status: SocketStatus)
    ensures var t := PollOne(io, id, status);
            && SameLib(io, t) && t.accepted == io.accepted && t.sockets.Keys == io.sockets.Keys
            && (forall x | x in io.sockets ::
                  t.sockets[x] == if x == id then Polled(io.sockets[x], status) else io.sockets[x])
            && (forall r :: r in t.answered <==>
                  r in io.answered || (id in io.sockets && Hears(io.sockets[id], status, r)))
  {
    if id in io.sockets { TurnedIs(io.sockets[id], status); }
    hide UpdateStatus;
  }

  lemma {:induction false} PollEntries(io: Io, order: seq<SocketId>, readings: map<SocketId, SocketStatus>)
    ensures var t := PollAll(io, order, readings);
            && SameLib(io, t) && t.accepted == io.accepted && t.sockets.Keys == io.sockets.Keys
            && (forall x | x in io.sockets ::
                  t.sockets[x] == if x in order then Polled(io.sockets[x], Reading(readings, x)) else io.sockets[x])
  {
    if order != [] {
      var n := |order| - 1;
      PollEntries(io, order[..n], readings);
      PollsOne(PollAll(io, order[..n], readings), order[n], Reading(readings, order[n]));
      assert order == order[..n] + [order[n]];
      hide PollOne, Polled, Hears, Reading;
      forall x | x in io.sockets { PolledTwice(io.sockets[x], Reading(readings, x)); }
    }
  }

  lemma PolledTwice(e: Entry, status: SocketStatus)
    ensures Polled(Polled(e, status), status) == Polled(e, status)
  {
    assert Turned(e, status).status == status;
    hide Turned;
  }

  lemma HearsOnce(e: Entry, status: SocketStatus, r: Reply)
    ensures !Hears(Polled(e, status), status, r)
  {
  }

  lemma {:induction false} PollAnswers(io: Io, order: seq<SocketId>, readings: map<SocketId, SocketStatus>, r: Reply)
    ensures r in PollAll(io, order, readings).answered <==>
            r in io.answered ||
            exists id :: id in order && id in io.sockets && Hears(io.sockets[id], Reading(readings, id), r)
  {
    if order != [] {
      var n := |order| - 1;
      var id, was := order[n], PollAll(io, order[..n], readings);
      PollAnswers(io, order[..n], readings, r);
      PollEntries(io, order[..n], readings);
      PollsOne(was, id, Reading(readings, id));
      assert order == order[..n] + [id];
      if id in io.sockets { HearsOnce(io.sockets[id], Reading(readings, id), r); }
      assert id in io.sockets ==>
               (r in PollAll(io, order, readings).answered <==>
                r in was.answered || Hears(was.sockets[id], Reading(readings, id), r));
      hide PollOne, Polled, Hears, PollAll;
      if id in io.sockets && id !in order[..n] { assert was.sockets[id] == io.sockets[id]; }
    } else {
      assert forall id :: id !in order;
    }
  }

  // ── Epoll events ──

  /** A connect done is answered by the state read, Ok only if CONNECTED, and the entry turns to that
      or to Broken. Without a pending connect the event changes nothing. */
  lemma ConnectEventAnswers(io: Io, id: SocketId, state: SocketStatus)
    ensures var t := Happen(io, ConnectEvent(id, state));
            if id in io.sockets && io.sockets[id].reply.Some?
            then
              var e := io.sockets[id];
              var status := if state == Connected then Connected else SocketStatus.Broken;
              && Becomes(io, t, id, Turned(e, status).(reply := None))
              && Answers(io, t, e.reply.value, state == Connected) && SameLib(io, t)
            else t == io
  {
  }

  /** An error breaks a socket, and a group only if its own state reads failed; a connect still
      pending stays so. */
  lemma ErrorEventBreaks(io: Io, id: SocketId, groupFailed: bool)
    ensures var t := Happen(io, ErrorEvent(id, groupFailed));
            if id in io.sockets && (!io.sockets[id].isGroup || groupFailed)
            then Becomes(io, t, id, Turned(io.sockets[id], SocketStatus.Broken)) && SameLib(io, t) && SameAnswers(io, t)
            else t == io
  {
  }

  // ── Commands ──

  /** Registering takes up both channels, on the entry there is or a new one at Init, and turns any
      but a group to the state libsrt reads, if that is another. */
  lemma RegistersExactly(io: Io, id: SocketId, actual: SocketStatus)
    ensures var t := Happen(io, RegisterSocket(id, actual));
            var was := if id in io.sockets then io.sockets[id]
                       else Entry(false, false, false, None, false, false, Init, None);
            var e := was.(recvTx := true, sendRx := true);
            && Becomes(io, t, id, if was.isGroup || actual == was.status then e else Turned(e, actual))
            && t.registered == io.registered + {id}
            && t.lib == io.lib && t.acts == io.acts && t.issued == io.issued && SameAnswers(io, t)
  {
  }

  /** A listener comes to the map with its accept channel and its slot; a slot the id already had is
      freed for the new one, and kept if there is none. */
  lemma ListenerRegistersExactly(io: Io, id: SocketId, slot: Option<Slot>)
    ensures var t := Happen(io, RegisterListener(id, slot));
            var was := if id in io.sockets then io.sockets[id]
                       else Entry(false, false, false, None, true, false, Init, None);
            && Becomes(io, t, id, was.(acceptTx := true, slot := if slot.Some? then slot else was.slot))
            && t.acts == io.acts + (if slot.None? then []
                                    else [Makes(slot.value, id)] +
                                         if was.slot.Some? then [Frees(was.slot.value)] else [])
            && t.registered == io.registered && t.issued == io.issued && SameAnswers(io, t)
  {
  }

  lemma GroupsComeAndConnect(io: Io, id: SocketId, refused: bool)
    ensures var made := Happen(io, CreateGroup(id));
            && Becomes(io, made, id, Entry(false, false, false, None, false, true, Init, None))
            && SameLib(io, made) && SameAnswers(io, made)
    ensures var t := Happen(io, ConnectGroup(id, refused));
            if !refused && id in io.sockets
            then Becomes(io, t, id, io.sockets[id].(status := Connected)) && SameLib(io, t) && SameAnswers(io, t)
            else t == io
  {
  }

  /** A connect refused, or read neither up nor on its way, is answered with an error at once, and
      one read CONNECTED with Ok; one on its way waits in its entry. */
  lemma ConnectsExactly(io: Io, id: SocketId, reply: Reply, begun: Begun)
    ensures var t := Happen(io, Connect(id, reply, begun));
            var waits := begun.In? && begun.state in {Connecting, Opened, Init};
            && t.issued == io.issued + [reply]
            && t.lib == io.lib && t.acts == io.acts && t.registered == io.registered
            && (if waits then SameAnswers(io, t) else Answers(io, t, reply, begun == In(Connected)))
            && (if waits && id in io.sockets
                then Becomes(io, t, id, io.sockets[id].(status := Connecting, reply := Some(reply)))
                else if begun == In(Connected) && id in io.sockets
                then Becomes(io, t, id, io.sockets[id].(status := Connected))
                else t.sockets == io.sockets)
  {
  }

  /** The acts of closing `e`: in libsrt, and then, if it has one, the free of its slot. */
  ghost function ClosingActs(io: Io, id: SocketId): seq<Act> {
    [HookTrace.Closes(id)] +
    if id in io.sockets && io.sockets[id].slot.Some? then [Frees(io.sockets[id].slot.value)] else []
  }

  /** The entry of `id` is gone. */
  ghost predicate Gone(io: Io, t: Io, id: SocketId) {
    id !in t.sockets && forall x | x != id ::
      (x in t.sockets <==> x in io.sockets) && (x in io.sockets ==> t.sockets[x] == io.sockets[x])
  }

  /** A close takes the entry out, and answers its pending connect with an error. */
  lemma ClosesExactly(io: Io, id: SocketId)
    ensures var t := Happen(io, Close(id));
            && Gone(io, t, id) && t.acts == io.acts + ClosingActs(io, id)
            && t.registered == io.registered && t.issued == io.issued
            && if id in io.sockets && io.sockets[id].reply.Some? then Answers(io, t, io.sockets[id].reply.value, false)
               else SameAnswers(io, t)
  {
  }

  /** A listener is armed if it has a slot, and then listens. If either fails it is closed, and a
      pending connect is not answered. */
  lemma ListensExactly(io: Io, id: SocketId, hooked: bool, listened: bool)
    ensures var t := Happen(io, Listen(id, hooked, listened));
            var slot := if id in io.sockets then io.sockets[id].slot else None;
            var arms := if slot.Some? then [Arms(id, slot.value)] else [];
            && t.registered == io.registered && t.issued == io.issued && SameAnswers(io, t)
            && (slot.Some? && !hooked ==> Gone(io, t, id) && t.acts == io.acts + ClosingActs(io, id))
            && ((slot.None? || hooked) && !listened ==>
                  Gone(io, t, id) && t.acts == io.acts + arms + ClosingActs(io, id))
            && ((slot.None? || hooked) && listened ==>
                  && t.acts == io.acts + arms + [Listens(id)]
                  && if id in io.sockets
                     then Becomes(io, t, id, io.sockets[id].(isListener := true, status := Listening))
                     else t.sockets == io.sockets)
  {
  }

  // ── Many closes ──

  /** The entries of `ids` are gone, and only those. */
  ghost predicate AllGone(io: Io, t: Io, ids: set<SocketId>) {
    && (forall x :: x in t.sockets <==> x in io.sockets && x !in ids)
    && (forall x | x in t.sockets :: t.sockets[x] == io.sockets[x])
    && t.accepted == io.accepted && t.issued == io.issued && t.registered == io.registered
  }

  /** The connects pending in them are answered, with an error. */
  ghost predicate AllAnswered(io: Io, t: Io, ids: set<SocketId>) {
    forall r :: r in t.answered <==>
      r in io.answered || exists x :: x in ids && x in io.sockets && io.sockets[x].reply == Some(r)
  }

  /** Each was told to close, and had its slot freed; nothing else was asked of libsrt. */
  ghost predicate AllClosed(io: Io, t: Io, ids: set<SocketId>) {
    io.acts <= t.acts && ClosesAll(io, t.acts[|io.acts|..], ids)
  }

  ghost predicate ClosesAll(io: Io, acts: seq<Act>, ids: set<SocketId>) {
    && (forall x :: HookTrace.Closes(x) in acts <==> x in ids)
    && (forall s: Slot :: Frees(s) in acts <==>
          exists x :: x in ids && x in io.sockets && io.sockets[x].slot == Some(s))
    && (forall a | a in acts :: a.Closes? || a.Frees?)
  }

  lemma OneMoreCloses(io: Io, mid: Io, acts: seq<Act>, ids: set<SocketId>, id: SocketId)
    requires ClosesAll(io, acts, ids) && AllGone(io, mid, ids)
    ensures ClosesAll(io, acts + ClosingActs(mid, id), ids + {id})
  {
    var more := ClosingActs(mid, id);
    forall s: Slot
      ensures Frees(s) in more <==> id in io.sockets && id !in ids && io.sockets[id].slot == Some(s)
    {
    }
    assert forall x :: HookTrace.Closes(x) in more <==> x == id;
    hide ClosingActs;
  }

  ghost function Ids(s: seq<SocketId>): set<SocketId> { set x | x in s }

  lemma {:induction false} EachIsGone(io: Io, ids: seq<SocketId>)
    ensures AllGone(io, CloseEach(io, ids), Ids(ids))
  {
    if ids != [] {
      var n := |ids| - 1;
      EachIsGone(io, ids[..n]);
      ClosesExactly(CloseEach(io, ids[..n]), ids[n]);
      assert ids == ids[..n] + [ids[n]];
      hide CloseAndAnswer;
    }
  }

  lemma {:induction false} EachIsAnswered(io: Io, ids: seq<SocketId>)
    ensures AllAnswered(io, CloseEach(io, ids), Ids(ids))
  {
    if ids != [] {
      var n := |ids| - 1;
      var mid := CloseEach(io, ids[..n]);
      EachIsAnswered(io, ids[..n]);
      EachIsGone(io, ids[..n]);
      ClosesExactly(mid, ids[n]);
      assert Ids(ids) == Ids(ids[..n]) + {ids[n]};
      hide CloseAndAnswer, Ids, Gone, ClosingActs;
    }
  }

  lemma {:induction false} EachIsClosed(io: Io, ids: seq<SocketId>)
    ensures AllClosed(io, CloseEach(io, ids), Ids(ids))
  {
    if ids == [] {
      assert io.acts[|io.acts|..] == [];
    } else {
      var n := |ids| - 1;
      EachIsClosed(io, ids[..n]);
      EachIsGone(io, ids[..n]);
      CloseActs(CloseEach(io, ids[..n]), ids[n]);
      assert Ids(ids) == Ids(ids[..n]) + {ids[n]};
      hide CloseAndAnswer, AllClosed, AllGone, Ids, ClosingActs;
      OneMoreClosed(io, CloseEach(io, ids[..n]), CloseEach(io, ids), Ids(ids[..n]), ids[n]);
    }
  }

  lemma CloseActs(io: Io, id: SocketId)
    ensures CloseAndAnswer(io, id).acts == io.acts + ClosingActs(io, id)
  {
  }

  lemma OneMoreClosed(io: Io, mid: Io, t: Io, ids: set<SocketId>, id: SocketId)
    requires AllClosed(io, mid, ids) && AllGone(io, mid, ids) && t.acts == mid.acts + ClosingActs(mid, id)
    ensures AllClosed(io, t, ids + {id})
  {
    OneMoreCloses(io, mid, mid.acts[|io.acts|..], ids, id);
    hide ClosesAll, ClosingActs, AllGone;
    assert t.acts[|io.acts|..] == mid.acts[|io.acts|..] + ClosingActs(mid, id);
  }

  /** A sweep closes the dead sockets that are no listener or group and have no application end. */
  lemma SweepsExactly(io: Io, order: seq<SocketId>, gone: set<SocketId>)
    ensures var t := Happen(io, Sweep(order, gone));
            var dead := set x | && x in order && x in io.sockets
                                && var e := io.sockets[x];
                                   IsDead(e.status) && !e.isListener && !e.isGroup && (!e.recvTx || x in gone);
            AllGone(io, t, dead) && AllAnswered(io, t, dead) && AllClosed(io, t, dead)
  {
    var ids := Zombies(io, order, gone);
    var dead := set x | && x in order && x in io.sockets
                        && var e := io.sockets[x];
                           IsDead(e.status) && !e.isListener && !e.isGroup && (!e.recvTx || x in gone);
    forall x ensures x in ids <==> x in dead { ZombiesAre(io, order, gone, x); }
    assert Ids(ids) == dead;
    EachIsGone(io, ids);
    EachIsAnswered(io, ids);
    EachIsClosed(io, ids);
    hide AllGone, AllAnswered, AllClosed, Zombies, CloseEach;
  }

  lemma ShutsDownExactly(io: Io, order: seq<SocketId>)
    ensures var t := Happen(io, Shutdown(order));
            AllGone(io, t, Ids(order)) && AllAnswered(io, t, Ids(order)) && AllClosed(io, t, Ids(order))
  {
    EachIsGone(io, order);
    EachIsAnswered(io, order);
    EachIsClosed(io, order);
    hide AllGone, AllAnswered, AllClosed;
  }

  // ── Over runs ──

  /** The event answers `r` with Ok: its connect, or the connect event of the socket it waits in, has
      read CONNECTED. */
  ghost predicate TellsUp(io: Io, ev: Event, r: Reply) {
    match ev
    case Connect(_, reply, begun) => reply == r && begun == In(Connected)
    case ConnectEvent(id, state) => Stores(io, id, r) && state == Connected
    case _ => false
  }

  lemma EventTells(io: Io, ev: Event, r: Reply)
    ensures r in Happen(io, ev).accepted <==> r in io.accepted || TellsUp(io, ev, r)
  {
    match ev
    case Poll(order, readings) => PollEntries(io, order, readings);
    case Sweep(order, gone) => EachIsGone(io, Zombies(io, order, gone));
    case Shutdown(order) => EachIsGone(io, order);
    case _ =>
    hide PollAll, CloseEach, Zombies, UpdateStatus, After;
  }

  /** Event `k` of the run does. */
  ghost predicate ToldUp(events: seq<Event>, k: nat, r: Reply) {
    k < |events| && TellsUp(Run(events[..k]), events[k], r)
  }

  /** Over every run a connect is told Ok exactly when libsrt was read CONNECTED for it. */
  lemma {:induction false} OkMeansConnected(events: seq<Event>, r: Reply)
    ensures r in Run(events).accepted <==> exists k: nat :: ToldUp(events, k, r)
  {
    if events != [] {
      var n := |events| - 1;
      OkMeansConnected(events[..n], r);
      EventTells(Run(events[..n]), events[n], r);
      assert ToldUp(events, n, r) == TellsUp(Run(events[..n]), events[n], r);
      forall k: nat | k < n ensures ToldUp(events[..n], k, r) == ToldUp(events, k, r) {
        assert events[..n][..k] == events[..k];
      }
      assert forall k: nat :: (ToldUp(events, k, r) ==> k <= n) && (ToldUp(events[..n], k, r) ==> k < n);
      hide Happen, TellsUp, ToldUp;
    }
  }
}
