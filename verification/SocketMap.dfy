/** The I/O thread's socket map: registration, listening, connecting, status changes, the zombie
    sweep and closing. Followed through every step: the channels a dead socket may hold, the
    replies to pending connects, and the access-control slots whose addresses libsrt holds. */
module SocketMap {
  import opened SrtTypes
  import opened HookTrace

  type Reply = nat

  /** `recvTx`, `sendRx`, `acceptTx`: whether the entry holds that channel end. */
  datatype Entry = Entry(
    recvTx: bool,
    sendRx: bool,
    acceptTx: bool,
    slot: Option<Slot>,
    isListener: bool,
    isGroup: bool,
    status: SocketStatus,
    reply: Option<Reply>)

  /** The map and what surrounds it. `acts`: every call to libsrt and the allocator about hooks, in
      order, and `lib`, where they leave things. `registered`: ids registered by the application.
      `issued`, `answered`: logs of replies; `accepted`: those answered Ok, and not with an error. */
  datatype Io = Io(
    sockets: map<SocketId, Entry>,
    lib: Lib,
    acts: seq<Act>,
    registered: set<SocketId>,
    issued: seq<Reply>,
    answered: seq<Reply>,
    accepted: set<Reply>)

  /** How a connect call went: refused at once, or begun, with the state read after it. */
  datatype Begun = Refused | In(state: SocketStatus)

  datatype Event =
    | RegisterSocket(id: SocketId, actual: SocketStatus)
    | RegisterListener(id: SocketId, slot: Option<Slot>)
    | CreateGroup(id: SocketId)
    | Listen(id: SocketId, hooked: bool, listened: bool)
    | Connect(id: SocketId, reply: Reply, begun: Begun)
    | Close(id: SocketId)
    | ConnectGroup(id: SocketId, refused: bool)
    | ConnectEvent(id: SocketId, state: SocketStatus)
    | ErrorEvent(id: SocketId, groupFailed: bool)
    | Poll(order: seq<SocketId>, readings: map<SocketId, SocketStatus>)
    | Sweep(order: seq<SocketId>, gone: set<SocketId>)
    | Shutdown(order: seq<SocketId>)

  const FRESH := Entry(false, false, false, None, false, false, Init, None)

  // ── One entry ──

  /** A terminal status drops the receive channel, and the send channel of a socket that was
      live. */
  function UpdateStatus(e: Entry, status: SocketStatus): Entry {
    e.(status := status,
       recvTx := e.recvTx && !IsTerminal(status),
       sendRx := e.sendRx && !(IsTerminal(status) && e.status in {Connected, Connecting}))
  }

  function Find(io: Io, id: SocketId, default: Entry): Entry {
    if id in io.sockets then io.sockets[id] else default
  }

  function Set(io: Io, id: SocketId, e: Entry): Io { io.(sockets := io.sockets[id := e]) }

  function Answer(io: Io, reply: Option<Reply>, ok: bool): Io {
    if reply.None? then io
    else io.(answered := io.answered + [reply.value],
             accepted := io.accepted + if ok then {reply.value} else {})
  }

  function Do(io: Io, a: Act): Io { io.(lib := After(io.lib, a), acts := io.acts + [a]) }

  /** Drop the entry, and with it its slot. */
  function Drop(io: Io, id: SocketId): Io {
    if id !in io.sockets then io
    else
      var slot := io.sockets[id].slot;
      var out := io.(sockets := io.sockets - {id});
      if slot.None? then out
      else Do(out, Frees(slot.value))
  }

  function Released(io: Io, id: SocketId): Io { Drop(Do(io, Closes(id)), id) }

  /** Close, release, and answer a connect still pending. */
  function CloseAndAnswer(io: Io, id: SocketId): Io {
    Answer(Released(io, id), Find(io, id, FRESH).reply, false)
  }

  // ── The steps ──

  function Listened(io: Io, id: SocketId, hooked: bool, listened: bool): Io {
    var slot := Find(io, id, FRESH).slot;
    if slot.Some? && !hooked then Released(io, id)
    else
      var armed := if slot.Some? then Do(io, Arms(id, slot.value)) else io;
      if !listened then Released(armed, id)
      else
        var on := Do(armed, Listens(id));
        if id in on.sockets
        then Set(on, id, UpdateStatus(on.sockets[id].(isListener := true), Listening))
        else on
  }

  function ConnectBegun(io0: Io, id: SocketId, reply: Reply, begun: Begun): Io {
    var io := io0.(issued := io0.issued + [reply]);
    if begun == Refused then Answer(io, Some(reply), false)
    else if begun.state == Connected then
      var up := if id in io.sockets then Set(io, id, UpdateStatus(io.sockets[id], Connected)) else io;
      Answer(up, Some(reply), true)
    else if begun.state in {Connecting, Opened, Init} then
      if id in io.sockets
      then Set(io, id, UpdateStatus(io.sockets[id].(reply := Some(reply)), Connecting))
      else io
    else Answer(io, Some(reply), false)
  }

  function PollOne(io: Io, id: SocketId, status: SocketStatus): Io {
    if id !in io.sockets then io
    else
      var e := io.sockets[id];
      if (e.isGroup && e.status == Init) || status == e.status then io
      else
        var next := UpdateStatus(e, status);
        if status in {SocketStatus.Broken, Closed}
        then Answer(Set(io, id, next.(reply := None)), e.reply, false)
        else Set(io, id, next)
  }

  function PollAll(io: Io, order: seq<SocketId>, readings: map<SocketId, SocketStatus>): Io {
    if order == [] then io
    else
      var n := |order| - 1;
      PollOne(PollAll(io, order[..n], readings), order[n],
              if order[n] in readings then readings[order[n]] else NonExist)
  }

  /** Dead, not a listener or a group, and with no application end left. */
  predicate Zombie(e: Entry, gone: bool) {
    IsTerminal(e.status) && !e.isListener && !e.isGroup && (!e.recvTx || gone)
  }

  function Zombies(io: Io, order: seq<SocketId>, gone: set<SocketId>): seq<SocketId> {
    if order == [] then []
    else
      var n := |order| - 1;
      Zombies(io, order[..n], gone) +
      if order[n] in io.sockets && Zombie(io.sockets[order[n]], order[n] in gone) then [order[n]] else []
  }

  function CloseEach(io: Io, ids: seq<SocketId>): Io {
    if ids == [] then io else CloseAndAnswer(CloseEach(io, ids[..|ids| - 1]), ids[|ids| - 1])
  }

  function Happen(io: Io, ev: Event): Io {
    match ev
    case RegisterSocket(id, actual) =>
      var e := Find(io, id, FRESH).(recvTx := true, sendRx := true);
      var reg := io.(registered := io.registered + {id});
      Set(reg, id, if !e.isGroup && actual != e.status then UpdateStatus(e, actual) else e)
    case RegisterListener(id, slot) =>
      var e := Find(io, id, FRESH.(isListener := true)).(acceptTx := true);
      if slot.None? then Set(io, id, e)
      else
        // A slot already there is dropped for the new one.
        var made := Do(io, Makes(slot.value, id));
        Set(if e.slot.None? then made else Do(made, Frees(e.slot.value)), id, e.(slot := slot))
    case CreateGroup(id) => Set(io, id, FRESH.(isGroup := true))
    case Listen(id, hooked, listened) => Listened(io, id, hooked, listened)
    case Connect(id, reply, begun) => ConnectBegun(io, id, reply, begun)
    case Close(id) => CloseAndAnswer(io, id)
    case ConnectGroup(id, refused) =>
      if refused || id !in io.sockets then io else Set(io, id, UpdateStatus(io.sockets[id], Connected))
    case ConnectEvent(id, state) =>
      if id !in io.sockets || io.sockets[id].reply.None? then io
      else
        var e := io.sockets[id];
        var status := if state == Connected then Connected else SocketStatus.Broken;
        Answer(Set(io, id, UpdateStatus(e.(reply := None), status)), e.reply, state == Connected)
    case ErrorEvent(id, groupFailed) =>
      if id !in io.sockets || (io.sockets[id].isGroup && !groupFailed) then io
      else Set(io, id, UpdateStatus(io.sockets[id], SocketStatus.Broken))
    case Poll(order, readings) => PollAll(io, order, readings)
    case Sweep(order, gone) => CloseEach(io, Zombies(io, order, gone))
    case Shutdown(order) => CloseEach(io, order)
  }

  function Run(events: seq<Event>): Io {
    if events == [] then Io(map[], NOTHING, [], {}, [], [], {})
    else Happen(Run(events[..|events| - 1]), events[|events| - 1])
  }

  // ── What the application and libsrt keep to ──

  ghost predicate FreshSlot(io: Io, s: Slot) { s !in io.lib.owner && s !in io.lib.freed }

  /** One registration and one connect per id, a listener set up before it listens, and fresh
      ids, slots and replies; a socket told to close never reads as connecting. */
  ghost predicate Orderly(io: Io, ev: Event) {
    match ev
    case RegisterSocket(id, _) => id !in io.registered && (id in io.sockets ==> io.sockets[id].status == Init)
    case RegisterListener(id, slot) =>
      && id !in io.sockets && id !in io.lib.listening
      && (slot.Some? ==> FreshSlot(io, slot.value))
    case CreateGroup(id) => id !in io.sockets
    case Listen(id, _, _) => id in io.sockets ==> io.sockets[id].reply == None
    case Connect(id, reply, begun) =>
      && reply !in io.issued && id in io.registered
      && (id in io.sockets ==> var e := io.sockets[id]; e.reply == None && !e.isListener && !e.isGroup)
      && (begun.In? && begun.state in {Connecting, Opened, Init} ==> id !in io.lib.shut)
    case _ => true
  }

  ghost predicate OrderlyRun(events: seq<Event>) {
    forall k | 0 <= k < |events| :: Orderly(Run(events[..k]), events[k])
  }

  // ── The invariants ──

  ghost predicate NoRepeats<T(!new)>(s: seq<T>) {
    forall i, j | 0 <= i < j < |s| :: s[i] != s[j]
  }

  /** A dead entry holds no receive channel. */
  ghost predicate DeadIsDeaf(io: Io) {
    forall id | id in io.sockets :: IsTerminal(io.sockets[id].status) ==> !io.sockets[id].recvTx
  }

  ghost predicate Stores(io: Io, id: SocketId, r: Reply) {
    id in io.sockets && io.sockets[id].reply == Some(r)
  }

  /** Every reply issued is either answered, once, or stored in one ordinary entry. */
  ghost predicate RepliesKept(io: Io) {
    && NoRepeats(io.answered)
    && (forall r | r in io.answered :: r in io.issued)
    && (forall r | r in io.accepted :: r in io.answered)
    && (forall id, r | Stores(io, id, r) :: r in io.issued && r !in io.answered)
    && (forall id, other, r | Stores(io, id, r) && Stores(io, other, r) :: id == other)
    && (forall r | r in io.issued :: r in io.answered || exists id :: Stores(io, id, r))
    && (forall id | id in io.sockets && io.sockets[id].reply.Some? ::
          !io.sockets[id].isListener && !io.sockets[id].isGroup)
    && (forall id | id in io.registered :: id in io.sockets || id in io.lib.shut)
  }

  ghost predicate HasSlot(io: Io, id: SocketId, s: Slot) {
    id in io.sockets && io.sockets[id].slot == Some(s)
  }

  /** The slots allocated are those of the entries, each of one entry. */
  ghost predicate SlotsOwned(io: Io) {
    && (forall id, s | HasSlot(io, id, s) :: s in io.lib.owner && io.lib.owner[s] == id)
    && (forall s | s in io.lib.owner :: HasSlot(io, io.lib.owner[s], s))
  }

  /** Every act so far was one that may be done, and `lib` is where they lead. */
  ghost predicate Traced(io: Io) {
    io.lib == Replay(io.acts) && Safe(io.lib) && Allowable(io.acts)
  }

  ghost predicate Inv(io: Io) {
    DeadIsDeaf(io) && RepliesKept(io) && SlotsOwned(io) && Traced(io)
  }

  lemma DoTraced(io: Io, a: Act)
    requires Traced(io) && Allowed(io.lib, a)
    ensures Traced(Do(io, a))
  {
    AllowableAppend(io.acts, a);
  }

  lemma AppendFresh<T(!new)>(s: seq<T>, x: T)
    requires NoRepeats(s) && x !in s
    ensures NoRepeats(s + [x])
  {
  }

  /** Replacing an entry by one with the same slot, and answering what it no longer stores. */
  lemma SetKeeps(io: Io, id: SocketId, e: Entry, answer: bool, ok: bool)
    requires Inv(io) && id in io.sockets
    requires e.slot == io.sockets[id].slot
    requires IsTerminal(e.status) ==> !e.recvTx
    requires if answer then e.reply == None else e.reply == io.sockets[id].reply
    requires e.reply.Some? ==> !e.isListener && !e.isGroup
    ensures Inv(if answer then Answer(Set(io, id, e), io.sockets[id].reply, ok) else Set(io, id, e))
  {
    var reply := io.sockets[id].reply;
    var t := if answer then Answer(Set(io, id, e), reply, ok) else Set(io, id, e);
    if answer && reply.Some? {
      assert Stores(io, id, reply.value);
      AppendFresh(io.answered, reply.value);
    }
    assert forall x, s :: HasSlot(t, x, s) <==> HasSlot(io, x, s);
    assert forall x, r :: Stores(t, x, r) <==> Stores(io, x, r) && !(answer && x == id);
  }

  /** A new entry, with a new slot or none. */
  lemma NewKeeps(io: Io, id: SocketId, e: Entry)
    requires Inv(io) && id !in io.sockets && e.reply == None
    requires IsTerminal(e.status) ==> !e.recvTx
    requires e.slot.Some? ==> FreshSlot(io, e.slot.value) && id !in io.lib.listening
    ensures Inv(Set(if e.slot.Some? then Do(io, Makes(e.slot.value, id)) else io, id, e))
  {
    var made := if e.slot.Some? then Do(io, Makes(e.slot.value, id)) else io;
    var t := Set(made, id, e);
    if e.slot.Some? {
      MakeAllowed(io.lib, e.slot.value, id);
      DoTraced(io, Makes(e.slot.value, id));
    }
    NewKeepsSlots(io, id, e);
    NewKeepsReplies(io, id, e);
    hide Traced, SlotsOwned, RepliesKept;
  }

  lemma NewKeepsReplies(io: Io, id: SocketId, e: Entry)
    requires RepliesKept(io) && id !in io.sockets && e.reply == None
    ensures RepliesKept(Set(if e.slot.Some? then Do(io, Makes(e.slot.value, id)) else io, id, e))
  {
    var t := Set(if e.slot.Some? then Do(io, Makes(e.slot.value, id)) else io, id, e);
    assert forall x, r :: Stores(t, x, r) <==> Stores(io, x, r);
  }

  lemma NewKeepsSlots(io: Io, id: SocketId, e: Entry)
    requires SlotsOwned(io) && id !in io.sockets
    requires e.slot.Some? ==> FreshSlot(io, e.slot.value)
    ensures SlotsOwned(Set(if e.slot.Some? then Do(io, Makes(e.slot.value, id)) else io, id, e))
  {
    var t := Set(if e.slot.Some? then Do(io, Makes(e.slot.value, id)) else io, id, e);
    assert forall x, s: Slot :: HasSlot(t, x, s) <==> HasSlot(io, x, s) || (x == id && e.slot == Some(s));
  }

  lemma MakeAllowed(l: Lib, s: Slot, id: SocketId)
    requires Safe(l) && s !in l.owner && s !in l.freed && id !in l.listening
    ensures Allowed(l, Makes(s, id))
  {
  }

  lemma RegisterKeeps(io: Io, id: SocketId)
    requires Inv(io) && id in io.sockets
    ensures Inv(io.(registered := io.registered + {id}))
  {
    var t := io.(registered := io.registered + {id});
    assert forall x, s :: HasSlot(t, x, s) <==> HasSlot(io, x, s);
    assert forall x, r :: Stores(t, x, r) <==> Stores(io, x, r);
  }

  /** Closing keeps the invariant: the hook is gone before the slot is freed, and a pending
      connect is answered as its entry leaves the map. */
  lemma CloseKeeps(io: Io, id: SocketId)
    requires Inv(io)
    ensures Inv(CloseAndAnswer(io, id))
  {
    CloseKeepsSlots(io, id);
    CloseKeepsReplies(io, id);
    hide SlotsOwned, RepliesKept, Traced;
  }

  lemma CloseKeepsSlots(io: Io, id: SocketId)
    requires SlotsOwned(io) && Traced(io)
    ensures SlotsOwned(CloseAndAnswer(io, id)) && Traced(CloseAndAnswer(io, id))
  {
    CloseKeepsTrace(io, id);
    CloseDrops(io, id);
    hide Traced, CloseAndAnswer, SlotsOwned;
    DropsSlot(io, CloseAndAnswer(io, id), id);
  }

  lemma DropsSlot(io: Io, t: Io, id: SocketId)
    requires SlotsOwned(io) && t.sockets == io.sockets - {id}
    requires var slot := Find(io, id, FRESH).slot;
             t.lib.owner == io.lib.owner - (if slot.Some? then {slot.value} else {})
    ensures SlotsOwned(t)
  {
    assert forall x, s :: HasSlot(t, x, s) <==> HasSlot(io, x, s) && x != id;
    if id in io.sockets && io.sockets[id].slot.Some? { assert HasSlot(io, id, io.sockets[id].slot.value); }
    forall s | s in t.lib.owner ensures HasSlot(t, t.lib.owner[s], s) {
      assert HasSlot(io, io.lib.owner[s], s);
    }
  }

  lemma CloseDrops(io: Io, id: SocketId)
    ensures var t, slot := CloseAndAnswer(io, id), Find(io, id, FRESH).slot;
            && t.sockets == io.sockets - {id}
            && t.lib.owner == io.lib.owner - (if slot.Some? then {slot.value} else {})
  {
  }

  /** The close may be done at any time; the free after it, since it is the socket's own slot. */
  lemma CloseKeepsTrace(io: Io, id: SocketId)
    requires SlotsOwned(io) && Traced(io)
    ensures Traced(CloseAndAnswer(io, id))
  {
    var e, shut := Find(io, id, FRESH), Do(io, Closes(id));
    CloseAllowed(io.lib, id);
    DoTraced(io, Closes(id));
    if e.slot.Some? {
      assert HasSlot(io, id, e.slot.value);
      FreeAllowed(shut.lib, e.slot.value);
      DoTraced(shut.(sockets := shut.sockets - {id}), Frees(e.slot.value));
    }
    hide Replay, Allowable, Allowed, Safe;
  }

  lemma CloseAllowed(l: Lib, id: SocketId)
    requires Safe(l)
    ensures Allowed(l, Closes(id))
  {
  }

  lemma FreeAllowed(l: Lib, s: Slot)
    requires Safe(l) && s in l.owner && l.owner[s] in l.shut && l.owner[s] !in l.hooks
    ensures Allowed(l, Frees(s))
  {
  }

  lemma CloseKeepsReplies(io: Io, id: SocketId)
    requires RepliesKept(io)
    ensures RepliesKept(CloseAndAnswer(io, id))
  {
    var t := CloseAndAnswer(io, id);
    var e := Find(io, id, FRESH);
    assert forall x, r :: Stores(t, x, r) <==> Stores(io, x, r) && x != id;
    if e.reply.Some? {
      assert Stores(io, id, e.reply.value);
      AppendFresh(io.answered, e.reply.value);
    }
  }

  /** Arming and listening. */
  lemma ArmKeeps(io: Io, id: SocketId, slot: Slot)
    requires Inv(io) && HasSlot(io, id, slot)
    ensures Inv(Do(io, Arms(id, slot)))
  {
    var t := Do(io, Arms(id, slot));
    ArmAllowed(io.lib, id, slot);
    DoTraced(io, Arms(id, slot));
    SameSlots(io, t);
    SameReplies(io, t);
    hide Traced, Allowed, SlotsOwned, RepliesKept;
  }

  lemma ArmAllowed(l: Lib, id: SocketId, s: Slot)
    requires Safe(l) && s in l.owner && l.owner[s] == id
    ensures Allowed(l, Arms(id, s))
  {
  }

  lemma SameSlots(io: Io, t: Io)
    requires SlotsOwned(io) && t.sockets == io.sockets && t.lib.owner == io.lib.owner
    ensures SlotsOwned(t)
  {
    assert forall x, s :: HasSlot(t, x, s) <==> HasSlot(io, x, s);
  }

  lemma SameReplies(io: Io, t: Io)
    requires RepliesKept(io) && t.sockets == io.sockets && io.lib.shut <= t.lib.shut
    requires t.issued == io.issued && t.registered == io.registered
    requires t.answered == io.answered && t.accepted == io.accepted
    ensures RepliesKept(t)
  {
    assert forall x, r :: Stores(t, x, r) <==> Stores(io, x, r);
  }

  /** A socket that has a slot is armed before it listens. */
  lemma ListeningKeeps(io: Io, id: SocketId)
    requires Inv(io) && (Find(io, id, FRESH).slot.Some? ==> id in io.lib.hooks)
    ensures Inv(Do(io, Listens(id)))
  {
    var t := Do(io, Listens(id));
    assert forall s | s in io.lib.owner && io.lib.owner[s] == id :: HasSlot(io, id, s);
    ListenAllowed(io.lib, id);
    DoTraced(io, Listens(id));
    SameSlots(io, t);
    SameReplies(io, t);
    hide Traced, Allowed, SlotsOwned, RepliesKept;
  }

  lemma ListenAllowed(l: Lib, id: SocketId)
    requires Safe(l) && ((exists s :: s in l.owner && l.owner[s] == id) ==> id in l.hooks)
    ensures Allowed(l, Listens(id))
  {
  }

  lemma ListenKeeps(io: Io, id: SocketId, hooked: bool, listened: bool)
    requires Inv(io) && (id in io.sockets ==> io.sockets[id].reply == None)
    ensures Inv(Listened(io, id, hooked, listened))
  {
    var slot := Find(io, id, FRESH).slot;
    CloseKeeps(io, id);
    if slot.Some? && hooked { ArmKeeps(io, id, slot.value); }
    if slot.None? || hooked { ArmedKeeps(if slot.Some? then Do(io, Arms(id, slot.value)) else io, id); }
    hide Inv, CloseAndAnswer, UpdateStatus;
  }

  /** Once armed, whether the listen succeeds or not. */
  lemma ArmedKeeps(io: Io, id: SocketId)
    requires Inv(io) && (Find(io, id, FRESH).slot.Some? ==> id in io.lib.hooks)
    requires id in io.sockets ==> io.sockets[id].reply == None
    ensures Inv(CloseAndAnswer(io, id))
    ensures var on := Do(io, Listens(id));
            Inv(if id in on.sockets
                then Set(on, id, UpdateStatus(on.sockets[id].(isListener := true), Listening))
                else on)
  {
    CloseKeeps(io, id);
    ListeningKeeps(io, id);
    var on := Do(io, Listens(id));
    hide Inv;
    if id in on.sockets {
      SetKeeps(on, id, UpdateStatus(on.sockets[id].(isListener := true), Listening), false, false);
    }
  }

  /** A reply issued and answered at once. */
  lemma AnswerNowKeeps(io: Io, reply: Reply, ok: bool)
    requires Inv(io) && reply !in io.issued
    ensures Inv(Answer(io.(issued := io.issued + [reply]), Some(reply), ok))
  {
    var t := Answer(io.(issued := io.issued + [reply]), Some(reply), ok);
    assert reply !in io.answered;
    AppendFresh(io.answered, reply);
    assert forall x, s :: HasSlot(t, x, s) <==> HasSlot(io, x, s);
    assert forall x, r :: Stores(t, x, r) <==> Stores(io, x, r);
  }

  /** A reply issued and stored until the handshake ends. */
  lemma StoreKeeps(io: Io, id: SocketId, reply: Reply)
    requires Inv(io) && reply !in io.issued && id in io.sockets
    requires var e := io.sockets[id]; e.reply == None && !e.isListener && !e.isGroup
    ensures Inv(ConnectBegun(io, id, reply, In(Connecting)))
  {
    var t := ConnectBegun(io, id, reply, In(Connecting));
    assert forall x, s :: HasSlot(t, x, s) <==> HasSlot(io, x, s);
    assert forall x, r: Reply :: Stores(t, x, r) <==> Stores(io, x, r) || (x == id && r == reply);
    assert Stores(t, id, reply);
  }

  lemma ConnectKeeps(io: Io, id: SocketId, reply: Reply, begun: Begun)
    requires Inv(io) && Orderly(io, Connect(id, reply, begun))
    ensures Inv(ConnectBegun(io, id, reply, begun))
  {
    if begun.In? && begun.state in {Connecting, Opened, Init} {
      StoreKeeps(io, id, reply);
    } else if begun == In(Connected) {
      var up := if id in io.sockets then Set(io, id, UpdateStatus(io.sockets[id], Connected)) else io;
      if id in io.sockets { SetKeeps(io, id, UpdateStatus(io.sockets[id], Connected), false, false); }
      AnswerNowKeeps(up, reply, true);
      hide Inv, UpdateStatus;
    } else {
      AnswerNowKeeps(io, reply, false);
    }
    hide Inv;
  }

  lemma PollOneKeeps(io: Io, id: SocketId, status: SocketStatus)
    requires Inv(io)
    ensures Inv(PollOne(io, id, status))
  {
    if id in io.sockets {
      var next := UpdateStatus(io.sockets[id], status);
      SetKeeps(io, id, next, false, false);
      SetKeeps(io, id, next.(reply := None), true, false);
    }
    hide Inv;
  }

  lemma {:induction false} PollKeeps(io: Io, order: seq<SocketId>, readings: map<SocketId, SocketStatus>)
    requires Inv(io)
    ensures Inv(PollAll(io, order, readings))
  {
    hide Inv;
    if order != [] {
      var n := |order| - 1;
      PollKeeps(io, order[..n], readings);
      PollOneKeeps(PollAll(io, order[..n], readings), order[n],
                   if order[n] in readings then readings[order[n]] else NonExist);
    }
  }

  lemma {:induction false} CloseEachKeeps(io: Io, ids: seq<SocketId>)
    requires Inv(io)
    ensures Inv(CloseEach(io, ids))
    ensures forall id :: id in CloseEach(io, ids).sockets <==> id in io.sockets && id !in ids
    ensures forall id | id in CloseEach(io, ids).sockets :: CloseEach(io, ids).sockets[id] == io.sockets[id]
  {
    hide Inv;
    if ids != [] {
      var n := |ids| - 1;
      CloseEachKeeps(io, ids[..n]);
      CloseKeeps(CloseEach(io, ids[..n]), ids[n]);
    }
  }

  lemma HappenKeeps(io: Io, ev: Event)
    requires Inv(io) && Orderly(io, ev)
    ensures Inv(Happen(io, ev))
  {
    match ev
    case RegisterSocket(id, actual) =>
      var e := Find(io, id, FRESH).(recvTx := true, sendRx := true);
      var next := if !e.isGroup && actual != e.status then UpdateStatus(e, actual) else e;
      if id in io.sockets {
        SetKeeps(io, id, next, false, false);
      } else {
        NewKeeps(io, id, next);
      }
      RegisterKeeps(Set(io, id, next), id);
      hide Inv, UpdateStatus;
    case RegisterListener(id, slot) =>
      NewKeeps(io, id, FRESH.(isListener := true, acceptTx := true, slot := slot));
      hide Inv;
    case CreateGroup(id) =>
      NewKeeps(io, id, FRESH.(isGroup := true));
      hide Inv;
    case Listen(id, hooked, listened) => ListenKeeps(io, id, hooked, listened);
    case Connect(id, reply, begun) => ConnectKeeps(io, id, reply, begun);
    case Close(id) => CloseKeeps(io, id);
    case ConnectGroup(id, refused) =>
      if id in io.sockets { SetKeeps(io, id, UpdateStatus(io.sockets[id], Connected), false, false); }
    case ConnectEvent(id, state) =>
      if id in io.sockets {
        var e := io.sockets[id].(reply := None);
        var status := if state == Connected then Connected else SocketStatus.Broken;
        SetKeeps(io, id, UpdateStatus(e, status), true, state == Connected);
      }
    case ErrorEvent(id, _) =>
      if id in io.sockets { SetKeeps(io, id, UpdateStatus(io.sockets[id], SocketStatus.Broken), false, false); }
    case Poll(order, readings) => PollKeeps(io, order, readings);
    case Sweep(order, gone) => CloseEachKeeps(io, Zombies(io, order, gone));
    case Shutdown(order) => CloseEachKeeps(io, order);
  }

  lemma OrderlyPrefix(events: seq<Event>, k: nat)
    requires OrderlyRun(events) && k <= |events|
    ensures OrderlyRun(events[..k])
    ensures k < |events| ==> Orderly(Run(events[..k]), events[k])
  {
    hide Orderly, Run;
    assert forall i | 0 <= i < k :: events[..k][..i] == events[..i] && events[..k][i] == events[i];
  }

  lemma {:induction false} RunHolds(events: seq<Event>)
    requires OrderlyRun(events)
    ensures Inv(Run(events))
  {
    if events != [] {
      hide Inv, Happen, Orderly, OrderlyRun;
      var n := |events| - 1;
      OrderlyPrefix(events, n);
      RunHolds(events[..n]);
      HappenKeeps(Run(events[..n]), events[n]);
    }
  }

  // ── What holds of every run ──

  /** After every single act of a run, closes and frees inside a step included, whatever hook
      libsrt may invoke reads a slot that is allocated, and its own socket's; and a listening
      socket that has a slot is armed. Between steps the slots are those of the entries. */
  lemma HooksReadLiveSlots(events: seq<Event>, k: nat)
    requires OrderlyRun(events)
    ensures var io := Run(events);
            && (k <= |io.acts| ==> Safe(Replay(io.acts[..k])))
            && io.lib == Replay(io.acts)
            && (forall id | id in io.lib.listening && Find(io, id, FRESH).slot.Some? ::
                  id in io.lib.hooks && Some(io.lib.hooks[id]) == io.sockets[id].slot)
  {
    RunHolds(events);
    var io := Run(events);
    if k <= |io.acts| { SafeThroughout(io.acts, k); }
    hide Run, Replay, Allowable, RepliesKept;
    forall id | id in io.lib.listening && Find(io, id, FRESH).slot.Some?
      ensures id in io.lib.hooks && Some(io.lib.hooks[id]) == io.sockets[id].slot
    {
      assert HasSlot(io, id, io.sockets[id].slot.value);
      assert HasSlot(io, id, io.lib.hooks[id]);
    }
  }

  /** In every run a slot is freed only after its socket was told to close, with no arming of it in
      between; and it is never armed, nor freed, again. */
  lemma FreedAfterItsClose(events: seq<Event>, i: nat)
    requires OrderlyRun(events) && i < |Run(events).acts| && Run(events).acts[i].Frees?
    ensures var acts := Run(events).acts;
            && (exists j: nat, id :: ClosedFor(acts, j, i, id) && Makes(acts[i].slot, id) in acts[..i])
            && (forall m | i < m < |acts| :: acts[m] != acts[i] && !(acts[m].Arms? && acts[m].slot == acts[i].slot))
  {
    RunHolds(events);
    var acts := Run(events).acts;
    FreedAfterClose(acts, i);
    forall m | i < m < |acts| ensures acts[m] != acts[i] && !(acts[m].Arms? && acts[m].slot == acts[i].slot) {
      FreedForGood(acts, i, m);
    }
    hide Run, Replay, Allowable, Inv, ClosedFor;
  }

  /** Each reply issued to a connect is answered once, or waits in exactly one entry of the map:
      none is lost when its entry leaves. */
  lemma EveryReplyOnce(events: seq<Event>, r: Reply)
    requires OrderlyRun(events)
    ensures var io := Run(events);
            && NoRepeats(io.answered)
            && (r in io.issued <==> r in io.answered || exists id :: Stores(io, id, r))
            && !(r in io.answered && exists id :: Stores(io, id, r))
            && (forall id, other | Stores(io, id, r) && Stores(io, other, r) :: id == other)
  {
    RunHolds(events);
    hide Run;
  }

  lemma {:induction false} ZombiesAre(io: Io, order: seq<SocketId>, gone: set<SocketId>, id: SocketId)
    ensures id in Zombies(io, order, gone) <==>
            id in order && id in io.sockets && Zombie(io.sockets[id], id in gone)
  {
    if order != [] { ZombiesAre(io, order[..|order| - 1], gone, id); }
  }

  /** A sweep over the whole map leaves no dead ordinary socket, whatever application ends are
      still open; so no reply waits in a dead entry, and one that did has been answered. */
  lemma SweepLeavesNoDead(events: seq<Event>, order: seq<SocketId>, gone: set<SocketId>, id: SocketId)
    requires OrderlyRun(events)
    requires forall x | x in Run(events).sockets :: x in order
    ensures var io := Run(events);
            var t := Happen(io, Sweep(order, gone));
            && (id in t.sockets && IsTerminal(t.sockets[id].status) ==>
                  t.sockets[id].isListener || t.sockets[id].isGroup)
            && (id in t.sockets && t.sockets[id].reply.Some? ==> !IsTerminal(t.sockets[id].status))
            && (id in io.sockets && IsTerminal(io.sockets[id].status) && io.sockets[id].reply.Some? ==>
                  io.sockets[id].reply.value in t.answered)
  {
    hide Run, Inv, Happen, CloseEach, Zombies, OrderlyRun;
    RunHolds(events);
    SweptOnce(Run(events), order, gone, id);
    SweepIs(Run(events), order, gone);
  }

  lemma SweepIs(io: Io, order: seq<SocketId>, gone: set<SocketId>)
    ensures Happen(io, Sweep(order, gone)) == CloseEach(io, Zombies(io, order, gone))
  {
  }

  lemma SweptOnce(io: Io, order: seq<SocketId>, gone: set<SocketId>, id: SocketId)
    requires Inv(io) && forall x | x in io.sockets :: x in order
    ensures var t := CloseEach(io, Zombies(io, order, gone));
            && (id in t.sockets && IsTerminal(t.sockets[id].status) ==>
                  t.sockets[id].isListener || t.sockets[id].isGroup)
            && (id in t.sockets && t.sockets[id].reply.Some? ==> !IsTerminal(t.sockets[id].status))
            && (id in io.sockets && IsTerminal(io.sockets[id].status) && io.sockets[id].reply.Some? ==>
                  io.sockets[id].reply.value in t.answered)
  {
    hide Zombies, CloseEach, Traced, SlotsOwned;
    var ids := Zombies(io, order, gone);
    var t := CloseEach(io, ids);
    CloseEachKeeps(io, ids);
    ZombiesAre(io, order, gone, id);
    CloseEachIssues(io, ids);
    if id in io.sockets && io.sockets[id].reply.Some? && id !in t.sockets {
      GoneIsAnswered(io, t, id, io.sockets[id].reply.value);
    }
    hide NoRepeats;
  }

  /** With entries only gone, the reply of one that is gone has been answered. */
  lemma GoneIsAnswered(io: Io, t: Io, id: SocketId, r: Reply)
    requires RepliesKept(io) && RepliesKept(t) && Stores(io, id, r) && id !in t.sockets && t.issued == io.issued
    requires forall x | x in t.sockets :: x in io.sockets && t.sockets[x] == io.sockets[x]
    ensures r in t.answered
  {
    assert forall x | Stores(t, x, r) :: Stores(io, x, r);
  }

  lemma {:induction false} CloseEachIssues(io: Io, ids: seq<SocketId>)
    ensures CloseEach(io, ids).issued == io.issued
  {
    if ids != [] { CloseEachIssues(io, ids[..|ids| - 1]); }
  }

  // ── A group before it is connected ──

  /** Created, and not yet connected: libsrt reads a group without members as BROKEN. */
  ghost predicate Unconnected(io: Io, id: SocketId) {
    id in io.sockets && io.sockets[id].isGroup && io.sockets[id].status == Init
  }

  /** No connect, listen, close, shutdown, or failure libsrt confirms, of this very group. */
  ghost predicate Spares(ev: Event, id: SocketId) {
    match ev
    case ConnectGroup(x, _) => x != id
    case ErrorEvent(x, groupFailed) => x != id || !groupFailed
    case Listen(x, _, _) => x != id
    case Close(x) => x != id
    case Shutdown(_) => false
    case _ => true
  }

  lemma {:induction false} PollSparesGroup(io: Io, order: seq<SocketId>, readings: map<SocketId, SocketStatus>,
                                           id: SocketId)
    requires Unconnected(io, id)
    ensures var t := PollAll(io, order, readings);
            id in t.sockets && t.sockets[id] == io.sockets[id]
  {
    if order != [] { PollSparesGroup(io, order[..|order| - 1], readings, id); }
  }

  lemma StepSparesGroup(io: Io, ev: Event, id: SocketId)
    requires Inv(io) && Orderly(io, ev) && Spares(ev, id) && Unconnected(io, id)
    ensures var t := Happen(io, ev);
            && Unconnected(t, id)
            && (io.sockets[id].recvTx ==> t.sockets[id].recvTx)
            && (io.sockets[id].sendRx ==> t.sockets[id].sendRx)
  {
    hide Traced, SlotsOwned, DeadIsDeaf;
    match ev
    case Poll(order, readings) => PollSparesGroup(io, order, readings, id);
    case Sweep(order, gone) =>
      CloseEachKeeps(io, Zombies(io, order, gone));
      ZombiesAre(io, order, gone, id);
    case ConnectEvent(x, _) => assert io.sockets[id].reply == None;
    case _ =>
    hide Inv, RepliesKept;
  }

  /** A group registered before its connect keeps its channels through any polls, epoll events,
      sweeps and commands for other sockets, however often libsrt reads it BROKEN meanwhile. */
  lemma {:induction false} UnconnectedGroupSurvives(events: seq<Event>, more: seq<Event>, id: SocketId)
    requires OrderlyRun(events + more) && (forall ev | ev in more :: Spares(ev, id))
    requires Unconnected(Run(events), id)
    ensures var e, t := Run(events).sockets[id], Run(events + more);
            && Unconnected(t, id)
            && (e.recvTx ==> t.sockets[id].recvTx)
            && (e.sendRx ==> t.sockets[id].sendRx)
  {
    hide Inv, Happen, Orderly, OrderlyRun;
    if more == [] {
      assert events + more == events;
    } else {
      var n := |more| - 1;
      var all := events + more;
      assert all[..|all| - 1] == events + more[..n];
      OrderlyPrefix(all, |all| - 1);
      UnconnectedGroupSurvives(events, more[..n], id);
      RunHolds(events + more[..n]);
      StepSparesGroup(Run(events + more[..n]), more[n], id);
    }
  }

  // ── Why the application must register once ──

  /** Registering a socket keeps dead entries deaf exactly when it does not find its entry dead
      already, with nothing newer to read. */
  lemma RegisterKeepsDeafExactly(io: Io, id: SocketId, actual: SocketStatus)
    requires DeadIsDeaf(io)
    ensures DeadIsDeaf(Happen(io, RegisterSocket(id, actual))) <==>
            !(&& id in io.sockets && IsTerminal(io.sockets[id].status)
              && (io.sockets[id].isGroup || actual == io.sockets[id].status))
  {
    var t := Happen(io, RegisterSocket(id, actual));
    assert id in t.sockets;
    assert forall x | x in t.sockets && x != id :: t.sockets[x] == io.sockets[x];
  }

  /** Registering a listener with a fresh slot, or none, keeps every hook on a live slot exactly
      when it brings no slot or libsrt holds no hook of that id: a second slot for a hooked id
      frees the one libsrt still reads. */
  lemma RegistrationIsSafeExactly(io: Io, id: SocketId, slot: Option<Slot>)
    requires Inv(io) && (slot.Some? ==> FreshSlot(io, slot.value))
    ensures HooksLive(Happen(io, RegisterListener(id, slot)).lib) <==> slot.None? || id !in io.lib.hooks
  {
    var t := Happen(io, RegisterListener(id, slot));
    hide Replay, Allowable, RepliesKept;
    if slot.Some? && id in io.lib.hooks {
      assert HasSlot(io, id, io.lib.hooks[id]);
      assert t.lib.hooks[id] !in t.lib.owner;
    } else if slot.Some? {
      forall x | x in t.lib.hooks ensures t.lib.hooks[x] in t.lib.owner {
        assert HasSlot(io, x, io.lib.hooks[x]);
        if id in io.sockets && io.sockets[id].slot.Some? { assert HasSlot(io, id, io.sockets[id].slot.value); }
      }
    }
  }

  /** Every hook libsrt holds reads a slot that is allocated. */
  ghost predicate HooksLive(l: Lib) { forall id | id in l.hooks :: l.hooks[id] in l.owner }

  // ── The thread itself ──

  class IoThread {
    var sockets: map<SocketId, Entry>
    ghost var lib: Lib
    ghost var acts: seq<Act>
    ghost var registered: set<SocketId>
    ghost var issued: seq<Reply>
    ghost var answered: seq<Reply>
    ghost var accepted: set<Reply>

    ghost function State(): Io
      reads this
    {
      Io(sockets, lib, acts, registered, issued, answered, accepted)
    }

    constructor ()
      ensures State() == Run([])
    {
      sockets, lib, acts := map[], NOTHING, [];
      registered, issued, answered, accepted := {}, [], [], {};
    }

    /** One call to libsrt or the allocator. */
    ghost method Record(a: Act)
      modifies this`lib, this`acts
      ensures State() == Do(old(State()), a)
    {
      lib, acts := After(lib, a), acts + [a];
    }

    method SendReply(reply: Option<Reply>, ok: bool)
      modifies this`answered, this`accepted
      ensures State() == Answer(old(State()), reply, ok)
    {
      if reply.Some? {
        answered := answered + [reply.value];
        if ok { accepted := accepted + {reply.value}; }
      }
    }

    /** Close in libsrt, then drop the entry: returns what was registered. */
    method CloseAndRelease(id: SocketId) returns (out: Option<Entry>)
      modifies this
      ensures State() == Released(old(State()), id)
      ensures out == if id in old(sockets) then Some(old(sockets)[id]) else None
    {
      Record(Closes(id));
      if id !in sockets {
        return None;
      }
      out := Some(sockets[id]);
      sockets := sockets - {id};
      if out.value.slot.Some? {
        Record(Frees(out.value.slot.value));
      }
    }

    method SetStatus(id: SocketId, status: SocketStatus)
      requires id in sockets
      modifies this`sockets
      ensures State() == Set(old(State()), id, UpdateStatus(old(sockets)[id], status))
    {
      var e := sockets[id];
      var previous := e.status;
      e := e.(status := status);
      if IsTerminal(status) {
        e := e.(recvTx := false);
        if previous == Connected || previous == Connecting {
          e := e.(sendRx := false);
        }
      }
      sockets := sockets[id := e];
    }

    method ProcessListen(id: SocketId, hooked: bool, listened: bool)
      modifies this
      ensures State() == Happen(old(State()), Listen(id, hooked, listened))
    {
      var slot := if id in sockets then sockets[id].slot else None;
      if slot.Some? {
        if !hooked {
          var _ := CloseAndRelease(id);
          return;
        }
        Record(Arms(id, slot.value));
      }
      if !listened {
        var _ := CloseAndRelease(id);
      } else {
        Record(Listens(id));
        if id in sockets {
          sockets := sockets[id := sockets[id].(isListener := true)];
          SetStatus(id, Listening);
        }
      }
    }

    method ProcessConnect(id: SocketId, reply: Reply, begun: Begun)
      modifies this
      ensures State() == Happen(old(State()), Connect(id, reply, begun))
    {
      issued := issued + [reply];
      if begun == Refused {
        SendReply(Some(reply), false);
        return;
      }
      if begun.state == Connected {
        if id in sockets { SetStatus(id, Connected); }
        SendReply(Some(reply), true);
      } else if begun.state == Connecting || begun.state == Opened || begun.state == Init {
        if id in sockets {
          sockets := sockets[id := sockets[id].(reply := Some(reply))];
          SetStatus(id, Connecting);
        }
      } else {
        SendReply(Some(reply), false);
      }
    }

    method ProcessClose(id: SocketId)
      modifies this
      ensures State() == Happen(old(State()), Close(id))
    {
      var out := CloseAndRelease(id);
      if out.Some? { SendReply(out.value.reply, false); }
    }

    /** libsrt reports a connect done: the state read then says how it went. */
    method ConnectDone(id: SocketId, state: SocketStatus)
      modifies this
      ensures State() == Happen(old(State()), ConnectEvent(id, state))
    {
      if id in sockets {
        var reply := sockets[id].reply;
        if reply.Some? {
          sockets := sockets[id := sockets[id].(reply := None)];
          SendReply(reply, state == Connected);
          SetStatus(id, if state == Connected then Connected else SocketStatus.Broken);
        }
      }
    }

    /** libsrt reports an error; of a group only if the group itself reads failed. */
    method ErrorRaised(id: SocketId, groupFailed: bool)
      modifies this
      ensures State() == Happen(old(State()), ErrorEvent(id, groupFailed))
    {
      if id in sockets {
        if sockets[id].isGroup && !groupFailed {
          return;
        }
        SetStatus(id, SocketStatus.Broken);
      }
    }

    method PollSocket(id: SocketId, status: SocketStatus)
      modifies this
      ensures State() == PollOne(old(State()), id, status)
    {
      hide UpdateStatus;
      if id !in sockets {
        return;
      }
      var e := sockets[id];
      if e.isGroup && e.status == Init {
        return;
      }
      if status != e.status {
        SetStatus(id, status);
        if status == SocketStatus.Broken || status == Closed {
          sockets := sockets[id := sockets[id].(reply := None)];
          SendReply(e.reply, false);
        }
      }
    }

    /** The state poll over the map, in whatever order it iterates. */
    method PollStates(order: seq<SocketId>, readings: map<SocketId, SocketStatus>)
      modifies this
      ensures State() == Happen(old(State()), Poll(order, readings))
    {
      hide PollOne;
      for i := 0 to |order|
        invariant State() == PollAll(old(State()), order[..i], readings)
      {
        assert order[..i+1][..i] == order[..i];
        PollSocket(order[i], if order[i] in readings then readings[order[i]] else NonExist);
      }
      assert order[..|order|] == order;
    }

    /** Collect the zombies, then close them. */
    method CleanupZombies(order: seq<SocketId>, gone: set<SocketId>)
      modifies this
      ensures State() == Happen(old(State()), Sweep(order, gone))
    {
      hide CloseAndAnswer;
      var buf: seq<SocketId> := [];
      for i := 0 to |order|
        invariant State() == old(State())
        invariant buf == Zombies(State(), order[..i], gone)
      {
        assert order[..i+1][..i] == order[..i];
        if order[i] in sockets && Zombie(sockets[order[i]], order[i] in gone) {
          buf := buf + [order[i]];
        }
      }
      assert order[..|order|] == order;
      for i := 0 to |buf|
        invariant State() == CloseEach(old(State()), buf[..i])
      {
        assert buf[..i+1][..i] == buf[..i];
        ProcessClose(buf[i]);
      }
      assert buf[..|buf|] == buf;
    }
  }
}
