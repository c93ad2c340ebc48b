/** Who closes an accepted connection. The I/O thread accepts into a bounded channel; the
    application takes from it, may abandon an accept part-way, and drops sockets and the listener
    at any time; commands reach the I/O thread in order, later. Every interleaving of these
    atomic steps is a run. */
module AcceptOwnership {
  import opened SrtTypes

  const ACCEPT_CHANNEL_CAPACITY := 16

  datatype Command = Register(id: SocketId) | Close(id: SocketId)

  /** An accept that has taken `id` and is still building its socket; `registered` once it has
      sent the registration. */
  datatype Unclaimed = Unclaimed(id: SocketId, registered: bool)

  /** The listener handle: alive, its Close sent, its channel closed and draining, gone. */
  datatype Handle = Alive | CloseSent | Draining | Gone

  /** `open`: accepted sockets libsrt has not been told to close. `entries`: those with an entry on
      the I/O thread. `closed`: those whose Close has been processed. `seen`: all ever accepted.
      `listening`: the listener's own entry is in the map. */
  datatype State = State(
    listener: SocketId,
    handle: Handle,
    listening: bool,
    channel: seq<SocketId>,
    channelOpen: bool,
    unclaimed: Option<Unclaimed>,
    owned: set<SocketId>,
    commands: seq<Command>,
    open: set<SocketId>,
    entries: set<SocketId>,
    closed: set<SocketId>,
    seen: set<SocketId>)

  datatype Act =
    | Accept(id: SocketId)          // I/O thread: hand the connection over, or close it
    | Process                       // I/O thread: the next command
    | Reap(id: SocketId)            // I/O thread: the zombie sweep
    | Take | SendRegister | Claim | Abandon
    | CloseSocket(id: SocketId) | DropSocket(id: SocketId)
    | CloseListener | DropSendsClose | DropClosesChannel | DropDrains

  function Queue(s: State, c: Command): State { s.(commands := s.commands + [c]) }

  function HandOver(s: State, id: SocketId): State {
    if id in s.seen || id == s.listener then s
    else if s.listening && s.channelOpen && |s.channel| < ACCEPT_CHANNEL_CAPACITY then
      s.(channel := s.channel + [id], open := s.open + {id}, seen := s.seen + {id})
    else s.(seen := s.seen + {id})
  }

  function ProcessNext(s: State): State {
    if s.commands == [] then s
    else
      var rest := s.(commands := s.commands[1..]);
      match s.commands[0]
      case Register(id) => rest.(entries := s.entries + {id})
      case Close(id) =>
        if id == s.listener then rest.(listening := false)
        else rest.(open := s.open - {id}, entries := s.entries - {id}, closed := s.closed + {id})
  }

  /** One atomic step; a step that is not possible now changes nothing. An accept borrows the
      listener, so the listener is not dropped while one is part-way. */
  function Do(s: State, a: Act): State {
    match a
    case Accept(id) => HandOver(s, id)
    case Process => ProcessNext(s)
    case Reap(id) =>
      if id in s.entries then s.(open := s.open - {id}, entries := s.entries - {id}) else s
    case Take =>
      if s.handle == Alive && s.unclaimed == None && s.channel != []
      then s.(channel := s.channel[1..], unclaimed := Some(Unclaimed(s.channel[0], false)))
      else s
    case SendRegister =>
      if s.unclaimed.Some? && !s.unclaimed.value.registered
      then Queue(s, Register(s.unclaimed.value.id)).(unclaimed := Some(s.unclaimed.value.(registered := true)))
      else s
    case Claim =>
      if s.unclaimed.Some? && s.unclaimed.value.registered
      then s.(unclaimed := None, owned := s.owned + {s.unclaimed.value.id})
      else s
    case Abandon =>
      if s.unclaimed.Some? then Queue(s, Close(s.unclaimed.value.id)).(unclaimed := None) else s
    case CloseSocket(id) => if id in s.owned then Queue(s, Close(id)) else s
    case DropSocket(id) => if id in s.owned then Queue(s, Close(id)).(owned := s.owned - {id}) else s
    case CloseListener => if s.handle == Alive then Queue(s, Close(s.listener)) else s
    case DropSendsClose =>
      if s.handle == Alive && s.unclaimed == None
      then Queue(s, Close(s.listener)).(handle := CloseSent)
      else s
    case DropClosesChannel =>
      if s.handle == CloseSent then s.(handle := Draining, channelOpen := false) else s
    case DropDrains =>
      if s.handle != Draining then s
      else if s.channel == [] then s.(handle := Gone)
      else Queue(s, Close(s.channel[0])).(channel := s.channel[1..])
  }

  function Run(s: State, acts: seq<Act>): State {
    if acts == [] then s else Do(Run(s, acts[..|acts| - 1]), acts[|acts| - 1])
  }

  function Listening(listener: SocketId): State {
    State(listener, Alive, true, [], true, None, {}, [], {}, {}, {}, {})
  }

  // ── The invariant ──

  ghost predicate HeldBy(s: State, id: SocketId) {
    id in s.channel || (s.unclaimed.Some? && s.unclaimed.value.id == id) || id in s.owned
  }

  /** No id has two holders, and none of those still to be built or taken has been closed or
      has a command under way that it has not sent. */
  ghost predicate Holders(s: State) {
    && (forall i, j | 0 <= i < j < |s.channel| :: s.channel[i] != s.channel[j])
    && (forall id | id in s.channel ::
          id !in s.owned && id !in s.closed && Register(id) !in s.commands && Close(id) !in s.commands)
    && (s.unclaimed.Some? ==>
          var u := s.unclaimed.value;
          && u.id !in s.channel && u.id !in s.owned && u.id !in s.closed && Close(u.id) !in s.commands
          && (!u.registered ==> Register(u.id) !in s.commands))
    && (forall id | HeldBy(s, id) :: id in s.seen)
    && s.listener !in s.seen
  }

  /** A registration never follows a close of the same id, queued or processed. */
  ghost predicate RegisterFirst(s: State) {
    && (forall i, j | 0 <= i < j < |s.commands| && s.commands[i].Close? ::
          s.commands[j] != Register(s.commands[i].id))
    && (forall id | id in s.closed :: Register(id) !in s.commands && id !in s.entries)
    && (forall c | c in s.commands && (c.Register? || c.id != s.listener) :: c.id in s.seen)
    && (forall id | id in s.closed || id in s.entries :: id in s.seen)
  }

  ghost predicate Owned(s: State) {
    forall id | id in s.open :: id in s.seen && (HeldBy(s, id) || Close(id) in s.commands)
  }

  ghost predicate Inv(s: State) {
    && Holders(s) && RegisterFirst(s) && Owned(s)
    && |s.channel| <= ACCEPT_CHANNEL_CAPACITY
    && (s.handle in {Draining, Gone} ==> !s.channelOpen && s.unclaimed == None)
    && (s.handle == CloseSent ==> s.unclaimed == None)
    && (s.handle == Gone ==> s.channel == [])
  }

  /** A new connection goes to the back of the channel while the listener stands and there is
      room; otherwise it is closed. */
  lemma HandOverKeeps(s: State, id: SocketId)
    requires Inv(s)
    ensures Inv(HandOver(s, id))
    ensures id !in s.seen && id != s.listener ==>
              var t, takes := HandOver(s, id), s.listening && s.channelOpen && |s.channel| < 16;
              && t.channel == s.channel + (if takes then [id] else [])
              && (id in t.open <==> takes)
  {
    var t := HandOver(s, id);
    assert forall x | HeldBy(t, x) :: x == id || HeldBy(s, x);
    assert forall x | HeldBy(s, x) :: HeldBy(t, x);
  }

  lemma ProcessKeepsOrder(s: State)
    requires RegisterFirst(s) && s.commands != []
    ensures RegisterFirst(ProcessNext(s))
  {
    var t := ProcessNext(s);
    assert forall i | 0 <= i < |t.commands| :: t.commands[i] == s.commands[i+1];
    assert forall d | d in t.commands :: d in s.commands;
    assert s.commands[0] in s.commands;
    if s.commands[0].Close? {
      forall d | d in t.commands ensures d != Register(s.commands[0].id) {
        var j :| 0 <= j < |t.commands| && t.commands[j] == d;
        assert s.commands[j+1] == d;
      }
    }
  }

  lemma ProcessKeepsOwned(s: State)
    requires Owned(s) && s.listener !in s.seen && s.commands != []
    ensures Owned(ProcessNext(s))
  {
    var t := ProcessNext(s);
    assert forall d | d in s.commands :: d == s.commands[0] || d in t.commands;
    assert forall x :: HeldBy(t, x) <==> HeldBy(s, x);
  }

  lemma ProcessKeepsHolders(s: State)
    requires Holders(s) && s.commands != []
    ensures Holders(ProcessNext(s))
  {
    var t := ProcessNext(s);
    assert forall d | d in t.commands :: d in s.commands;
    assert forall x :: HeldBy(t, x) <==> HeldBy(s, x);
    assert s.commands[0] in s.commands;
  }

  lemma ProcessKeeps(s: State)
    requires Inv(s)
    ensures Inv(ProcessNext(s))
  {
    if s.commands != [] {
      ProcessKeepsOrder(s);
      assert s.listener !in s.seen;
      ProcessKeepsOwned(s);
      ProcessKeepsHolders(s);
      hide Holders, RegisterFirst, Owned;
    }
  }

  lemma HolderKeeps(s: State, a: Act)
    requires Inv(s)
    requires a.Reap? || a in {Take, Claim, DropClosesChannel}
    ensures Inv(Do(s, a))
  {
    var t := Do(s, a);
    if a == Take && t != s {
      assert forall x :: x in s.channel <==> x == s.channel[0] || x in t.channel;
    }
    assert forall x :: HeldBy(t, x) <==> HeldBy(s, x);
  }

  /** A step of the application's that sends a command. */
  predicate Sends(s: State, a: Act) {
    match a
    case SendRegister => s.unclaimed.Some? && !s.unclaimed.value.registered
    case Abandon => s.unclaimed.Some?
    case CloseSocket(id) => id in s.owned
    case DropSocket(id) => id in s.owned
    case CloseListener => s.handle == Alive
    case DropSendsClose => s.handle == Alive && s.unclaimed == None
    case DropDrains => s.handle == Draining && s.channel != []
    case _ => false
  }

  ghost function SentBy(s: State, a: Act): Command
    requires Sends(s, a)
  {
    match a
    case SendRegister => Register(s.unclaimed.value.id)
    case Abandon => Close(s.unclaimed.value.id)
    case CloseSocket(id) => Close(id)
    case DropSocket(id) => Close(id)
    case CloseListener => Close(s.listener)
    case DropSendsClose => Close(s.listener)
    case DropDrains => Close(s.channel[0])
  }

  /** Sending appends one command, and touches nothing on the I/O thread; who lets go of a
      connection sends its Close. */
  lemma SendShape(s: State, a: Act)
    requires Inv(s) && Sends(s, a)
    ensures var t, c := Do(s, a), SentBy(s, a);
            && t.commands == s.commands + [c]
            && t.open == s.open && t.entries == s.entries && t.closed == s.closed && t.seen == s.seen
            && t.listener == s.listener
            && (forall x | HeldBy(t, x) :: HeldBy(s, x))
            && (forall x | HeldBy(s, x) && !HeldBy(t, x) :: c == Close(x))
            && (c.Register? || c.id != s.listener ==> HeldBy(s, c.id))
            && (c.Register? ==>
                  && c.id !in s.channel
                  && s.unclaimed == Some(Unclaimed(c.id, false)) && t.unclaimed == Some(Unclaimed(c.id, true)))
            && (c.Close? ==>
                  && c.id !in t.channel
                  && (t.unclaimed.Some? ==> t.unclaimed == s.unclaimed && t.unclaimed.value.id != c.id))
            && t.owned == (if a.DropSocket? then s.owned - {a.id} else s.owned)
            && t.handle == (if a == DropSendsClose then CloseSent else s.handle)
            && (t.channel == s.channel || (s.channel != [] && t.channel == s.channel[1..]))
  {
    SendQueues(s, a);
    SendLetsGo(s, a);
    hide Do, SentBy, Inv, HeldBy;
  }

  lemma SendQueues(s: State, a: Act)
    requires Inv(s) && Sends(s, a)
    ensures var t, c := Do(s, a), SentBy(s, a);
            && t.commands == s.commands + [c]
            && t.open == s.open && t.entries == s.entries && t.closed == s.closed && t.seen == s.seen
            && t.listener == s.listener
            && (c.Register? ==>
                  && c.id !in s.channel
                  && s.unclaimed == Some(Unclaimed(c.id, false)) && t.unclaimed == Some(Unclaimed(c.id, true)))
            && t.owned == (if a.DropSocket? then s.owned - {a.id} else s.owned)
            && t.handle == (if a == DropSendsClose then CloseSent else s.handle)
            && (t.channel == s.channel || (s.channel != [] && t.channel == s.channel[1..]))
  {
    hide RegisterFirst, Owned, HeldBy;
  }

  lemma SendLetsGo(s: State, a: Act)
    requires Inv(s) && Sends(s, a)
    ensures var t, c := Do(s, a), SentBy(s, a);
            && (forall x | HeldBy(t, x) :: HeldBy(s, x))
            && (forall x | HeldBy(s, x) && !HeldBy(t, x) :: c == Close(x))
            && (c.Register? || c.id != s.listener ==> HeldBy(s, c.id))
            && (c.Close? ==>
                  && c.id !in t.channel
                  && (t.unclaimed.Some? ==> t.unclaimed == s.unclaimed && t.unclaimed.value.id != c.id))
  {
    var t := Do(s, a);
    if a == DropDrains {
      assert forall x :: x in s.channel <==> x == s.channel[0] || x in t.channel;
    }
    hide RegisterFirst, Owned;
  }

  lemma SendKeeps(s: State, a: Act)
    requires Inv(s) && Sends(s, a)
    ensures Inv(Do(s, a))
  {
    SendShape(s, a);
    var t, c := Do(s, a), SentBy(s, a);
    assert forall d :: d in t.commands <==> d == c || d in s.commands;
    assert (t.handle in {Draining, Gone} ==> !t.channelOpen && t.unclaimed == None)
           && (t.handle == CloseSent ==> t.unclaimed == None) && (t.handle == Gone ==> t.channel == []);
    hide Do, SentBy;
    assert Owned(t);
    assert RegisterFirst(t);
    assert Holders(t);
  }

  lemma OtherKeeps(s: State, a: Act)
    requires Inv(s) && !Sends(s, a)
    requires !a.Accept? && !a.Process? && !a.Reap? && a !in {Take, Claim, DropClosesChannel}
    ensures Inv(Do(s, a))
  {
    var t := Do(s, a);
    assert forall x :: HeldBy(t, x) <==> HeldBy(s, x);
  }

  lemma {:induction false} RunHolds(listener: SocketId, acts: seq<Act>)
    ensures Inv(Run(Listening(listener), acts))
  {
    if acts != [] {
      var n := |acts| - 1;
      RunHolds(listener, acts[..n]);
      var s, a := Run(Listening(listener), acts[..n]), acts[n];
      hide Inv;
      if a.Accept? { HandOverKeeps(s, a.id); }
      else if a.Process? { ProcessKeeps(s); }
      else if a.Reap? || a in {Take, Claim, DropClosesChannel} { HolderKeeps(s, a); }
      else if Sends(s, a) { SendKeeps(s, a); }
      else { OtherKeeps(s, a); }
    }
  }

  // ── What holds of every run ──

  /** Every open accepted connection has exactly one holder, or a Close on its way; and the
      channel never holds more than its capacity. */
  lemma EveryConnectionHasAnOwner(listener: SocketId, acts: seq<Act>, id: SocketId)
    ensures var s := Run(Listening(listener), acts);
            && |s.channel| <= 16
            && (id in s.open ==> HeldBy(s, id) || Close(id) in s.commands)
            && (id in s.channel ==> id !in s.owned && (s.unclaimed.Some? ==> s.unclaimed.value.id != id))
            && (s.unclaimed.Some? ==> s.unclaimed.value.id !in s.owned)
  {
    RunHolds(listener, acts);
  }

  /** Once its Close has been processed a connection has no entry on the I/O thread, and never
      gets one again. */
  lemma ClosedIsNeverRegistered(listener: SocketId, acts: seq<Act>, more: seq<Act>, id: SocketId)
    requires id in Run(Listening(listener), acts).closed
    ensures var s := Run(Listening(listener), acts + more);
            id in s.closed && id !in s.entries && Register(id) !in s.commands
  {
    RunHolds(listener, acts + more);
    ClosedGrows(listener, acts, more, id);
    hide Run, Holders, Owned;
  }

  lemma {:induction false} ClosedGrows(listener: SocketId, acts: seq<Act>, more: seq<Act>, id: SocketId)
    requires id in Run(Listening(listener), acts).closed
    ensures id in Run(Listening(listener), acts + more).closed
  {
    if more == [] {
      assert acts + more == acts;
    } else {
      var n := |more| - 1;
      assert (acts + more)[..|acts + more| - 1] == acts + more[..n];
      ClosedGrows(listener, acts, more[..n], id);
    }
  }

  /** With the listener and every socket dropped, and the commands processed, nothing accepted
      is left open. */
  lemma NothingIsLeftOpen(listener: SocketId, acts: seq<Act>)
    ensures var s := Run(Listening(listener), acts);
            s.handle == Gone && s.owned == {} && s.commands == [] ==> s.open == {}
  {
    RunHolds(listener, acts);
    var s := Run(Listening(listener), acts);
    hide Run, Holders, RegisterFirst;
    if s.handle == Gone && s.owned == {} && s.commands == [] {
      assert forall id :: !HeldBy(s, id) && Close(id) !in s.commands;
      assert forall id :: id !in s.open;
    }
  }

  /** Built by an accept: in its guard with the registration sent, or in a socket. */
  ghost predicate Built(s: State, id: SocketId) {
    id in s.owned || s.unclaimed == Some(Unclaimed(id, true))
  }

  ghost predicate BuiltAreKnown(s: State) {
    forall id | Built(s, id) && id in s.open :: id in s.entries || Register(id) in s.commands
  }

  lemma KnownStays(s: State, a: Act)
    requires Inv(s) && BuiltAreKnown(s)
    ensures BuiltAreKnown(Do(s, a))
  {
    var t := Do(s, a);
    if Sends(s, a) {
      SendQueues(s, a);
      forall id | Built(t, id) && id in t.open ensures id in t.entries || Register(id) in t.commands {
        if !Built(s, id) { assert t.commands[|s.commands|] == Register(id); }
      }
    } else if a == Process && s.commands != [] {
      assert forall c | c in s.commands :: c == s.commands[0] || c in t.commands;
    } else {
      assert forall id | Built(t, id) && id in t.open :: Built(s, id) && id in s.open;
    }
    hide Holders, RegisterFirst, Owned;
  }

  /** In every interleaving a socket the application has been given, and libsrt has not been told to
      close, has an entry on the I/O thread, or its registration is on its way. */
  lemma {:induction false} BuiltIsRegistered(listener: SocketId, acts: seq<Act>)
    ensures BuiltAreKnown(Run(Listening(listener), acts))
  {
    if acts != [] {
      var n := |acts| - 1;
      RunHolds(listener, acts[..n]);
      BuiltIsRegistered(listener, acts[..n]);
      KnownStays(Run(Listening(listener), acts[..n]), acts[n]);
      hide Inv, BuiltAreKnown, Do;
    }
  }

  /** The next command is carried out and no other: a registration makes an entry, the listener's
      Close stops it listening, and any other closes its connection and drops its entry. */
  lemma ProcessesExactly(s: State)
    requires s.commands != []
    ensures var t, c := Do(s, Process), s.commands[0];
            && t.commands == s.commands[1..] && t.channel == s.channel && t.owned == s.owned
            && t.unclaimed == s.unclaimed && t.handle == s.handle && t.seen == s.seen
            && (forall id :: id in t.entries <==>
                  (id in s.entries && !(c == Close(id) && id != s.listener)) || c == Register(id))
            && (forall id :: id in t.open <==> id in s.open && !(c == Close(id) && id != s.listener))
            && (forall id :: id in t.closed <==> id in s.closed || (c == Close(id) && id != s.listener))
            && (t.listening <==> s.listening && c != Close(s.listener))
  {
  }

  /** The sweep closes a connection whose entry it takes out, and nothing else. */
  lemma ReapsExactly(s: State, id: SocketId)
    ensures var t := Do(s, Reap(id));
            if id in s.entries
            then && (forall x :: x in t.entries <==> x in s.entries && x != id)
                 && (forall x :: x in t.open <==> x in s.open && x != id)
                 && t == s.(entries := t.entries, open := t.open)
            else t == s
  {
  }

  // ── The handle's own methods, run to their end ──

  /** Where an accept future is dropped. */
  datatype Cut = Waiting | Building | Never

  /** What an accept of `id` sends. */
  function AcceptSent(id: SocketId, cut: Cut): seq<Command> {
    match cut
    case Waiting => []
    case Building => [Register(id), Close(id)]
    case Never => [Register(id)]
  }

  function Closes(ids: seq<SocketId>): seq<Command> {
    seq(|ids|, i requires 0 <= i < |ids| => Close(ids[i]))
  }

  /** The application's end of the listener. */
  class ListenerHandle {
    const id: SocketId
    var acceptRx: seq<SocketId>
    var rxOpen: bool
    var sent: seq<Command>

    constructor (id: SocketId)
      ensures this.id == id && acceptRx == [] && rxOpen && sent == []
    {
      this.id := id;
      acceptRx, rxOpen, sent := [], true, [];
    }

    /** Takes the next connection and builds its socket; `cut` says where the future is dropped,
        if it is: while it waits, while the socket is being built, or not at all. Returns the
        connection the caller owns. */
    method Accept(cut: Cut) returns (socket: Option<SocketId>)
      modifies this
      ensures rxOpen == old(rxOpen)
      ensures cut == Waiting || old(acceptRx) == [] ==>
                socket == None && acceptRx == old(acceptRx) && sent == old(sent)
      ensures cut != Waiting && old(acceptRx) != [] ==>
                var id := old(acceptRx)[0];
                && acceptRx == old(acceptRx)[1..] && sent == old(sent) + AcceptSent(id, cut)
                && socket == if cut == Never then Some(id) else None
    {
      if cut == Waiting || acceptRx == [] {
        return None;
      }
      var id := acceptRx[0];
      acceptRx := acceptRx[1..];
      sent := sent + [Register(id)];
      if cut == Building {
        sent := sent + [Close(id)];
        return None;
      }
      return Some(id);
    }

    /** Sends the listener's Close, closes the channel, and sends a Close for each connection
        still waiting in it, in order. */
    method Drop()
      modifies this
      ensures acceptRx == [] && !rxOpen
      ensures sent == old(sent) + [Close(id)] + Closes(old(acceptRx))
    {
      sent := sent + [Close(id)];
      rxOpen := false;
      ghost var n := 0;
      while acceptRx != []
        invariant n <= |old(acceptRx)| && acceptRx == old(acceptRx)[n..] && !rxOpen
        invariant sent == old(sent) + [Close(id)] + Closes(old(acceptRx)[..n])
        decreases |acceptRx|
      {
        var next := acceptRx[0];
        acceptRx := acceptRx[1..];
        sent := sent + [Close(next)];
        n := n + 1;
        assert Closes(old(acceptRx)[..n]) == Closes(old(acceptRx)[..n - 1]) + [Close(next)];
      }
      assert old(acceptRx)[..n] == old(acceptRx);
    }
  }

  /** The atomic steps of an accept, in a row: ending at `cut` they take and send just what
      `ListenerHandle.Accept` does with that cut. */
  lemma AcceptSends(s: State, cut: Cut)
    requires s.handle == Alive && s.unclaimed == None && s.channel != [] && cut != Waiting
    ensures var id := s.channel[0];
            Run(s, [Take, SendRegister, if cut == Never then Claim else Abandon]) ==
            s.(channel := s.channel[1..], commands := s.commands + AcceptSent(id, cut),
               owned := s.owned + if cut == Never then {id} else {})
  {
    RunThree(s, Take, SendRegister, Claim);
    RunThree(s, Take, SendRegister, Abandon);
    hide Run;
    var id := s.channel[0];
    assert s.commands + [Register(id)] + [Close(id)] == s.commands + [Register(id), Close(id)];
    assert s.owned + {} == s.owned;
  }

  lemma RunThree(s: State, a: Act, b: Act, c: Act)
    ensures Run(s, [a, b, c]) == Do(Do(Do(s, a), b), c)
  {
    hide Do;
    assert [a][..0] == [] && [a, b][..1] == [a] && [a, b, c][..2] == [a, b];
    assert Run(s, [a]) == Do(s, a);
    assert Run(s, [a, b]) == Do(Do(s, a), b);
  }

  /** The steps of a drop: the listener's Close, the channel closed, and one step for each
      connection waiting. */
  function DropSteps(n: nat): seq<Act> {
    [DropSendsClose, DropClosesChannel] + seq(n, i => DropDrains)
  }

  /** In a row they leave the channel empty and send just what `ListenerHandle.Drop` sends; one
      step more finds the channel empty and the drop is over. */
  lemma DropSends(s: State)
    requires s.handle == Alive && s.unclaimed == None
    ensures Run(s, DropSteps(|s.channel|)) ==
            s.(handle := Draining, channelOpen := false, channel := [],
               commands := s.commands + [Close(s.listener)] + Closes(s.channel))
    ensures Do(Run(s, DropSteps(|s.channel|)), DropDrains).handle == Gone
  {
    DropDrained(s, |s.channel|);
    assert s.channel[..|s.channel|] == s.channel;
    assert s.channel[|s.channel|..] == [];
    hide Run;
  }

  lemma DropBegins(s: State)
    requires s.handle == Alive && s.unclaimed == None
    ensures Run(s, DropSteps(0)) ==
            s.(handle := Draining, channelOpen := false, commands := s.commands + [Close(s.listener)])
  {
    var begun := [DropSendsClose, DropClosesChannel];
    assert DropSteps(0) == begun && begun[..1] == [DropSendsClose] && [DropSendsClose][..0] == [];
    assert Run(s, [DropSendsClose]) == Do(s, DropSendsClose);
  }

  lemma {:induction false} DropDrained(s: State, n: nat)
    requires s.handle == Alive && s.unclaimed == None && n <= |s.channel|
    ensures Run(s, DropSteps(n)) ==
            s.(handle := Draining, channelOpen := false, channel := s.channel[n..],
               commands := s.commands + [Close(s.listener)] + Closes(s.channel[..n]))
  {
    if n == 0 {
      DropBegins(s);
      assert Closes(s.channel[..0]) == [];
    } else {
      DropDrained(s, n - 1);
      assert DropSteps(n)[..|DropSteps(n)| - 1] == DropSteps(n - 1);
      var t := Run(s, DropSteps(n - 1));
      assert Run(s, DropSteps(n)) == Do(t, DropDrains);
      hide Closes, Run;
      ClosesNext(s.channel, n - 1);
      assert t.channel[1..] == s.channel[n..];
    }
  }

  lemma ClosesNext(ids: seq<SocketId>, n: nat)
    requires n < |ids|
    ensures Closes(ids[..n + 1]) == Closes(ids[..n]) + [Close(ids[n])]
  {
  }
}
