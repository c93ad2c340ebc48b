/** libsrt's connect write racing its own handshake for one member of a caller group, and what
    the bridge's "live state first, listing second" look concludes from it.

    The application's connect call reads the member's status and then writes the member
    Pending, or Broken if it read Broken. The handshake, on another thread, writes the member
    Idle and only then makes the socket live. Any interleaving is allowed. */
module ConnectRace {
  import opened SrtTypes
  import opened Watch

  /** Progress of the connect call: about to read the status, about to write, done. */
  datatype Connect = ToRead | ToWrite(read: SocketStatus) | Written

  /** Progress of the handshake. In `Dip` a successful handshake reads BROKEN for an instant;
      from `Entered` on it has written the member Idle; only `Up` reads CONNECTED. */
  datatype Handshake = Shaking | Dip | Joined | Entered | Up | Dead(status: SocketStatus)

  /** The bridge's look: none yet, live state read, or listing read too. */
  datatype Look = NoLook | LiveRead(live: SocketStatus) | Looked(live: SocketStatus, row: Row)

  /** `snd`, `rcv`: the member's state per direction. `listed`: the socket state in its row.
      `entered`: the handshake has written Idle. `overwritten`: the connect call wrote after
      that. `data`: data arrived since the connect call wrote. */
  datatype Member = Member(
    connect: Connect,
    handshake: Handshake,
    snd: MemberStatus,
    rcv: MemberStatus,
    listed: SocketStatus,
    look: Look,
    entered: bool,
    overwritten: bool,
    data: bool)

  function Live(m: Member): SocketStatus {
    match m.handshake
    case Shaking => Connecting
    case Dip => SocketStatus.Broken
    case Joined => Connecting
    case Entered => Connecting
    case Up => Connected
    case Dead(s) => s
  }

  /** The listing shows Running when either direction runs, else the send state. */
  function Listing(m: Member): Row {
    Row(0, 0, if m.snd == MemberStatus.Running || m.rcv == MemberStatus.Running
              then MemberStatus.Running else m.snd, m.listed)
  }

  datatype Act =
    | ConnectReads | ConnectWrites
    | HandshakeDips | HandshakeJoins | HandshakeEnters | HandshakeUp | SocketDies(status: SocketStatus)
    | DataArrives | LinkStandsBy
    | SendStarts | SendStops
    | SendBreaks | ReceiveBreaks | ListsDead(status: SocketStatus)
    | BridgeReadsLive | BridgeReadsListing

  /** One atomic act; an act that is not possible now changes nothing. */
  function Do(m: Member, a: Act): Member {
    match a
    case ConnectReads =>
      if m.connect == ToRead then m.(connect := ToWrite(Live(m))) else m
    case ConnectWrites =>
      if !m.connect.ToWrite? then m
      else
        var broken := m.connect.read == SocketStatus.Broken;
        var s := if broken then MemberStatus.Broken else Pending;
        m.(connect := Written, snd := s, rcv := s, listed := m.connect.read,
           overwritten := m.entered, data := false)
    case HandshakeDips => if m.handshake == Shaking then m.(handshake := Dip) else m
    case HandshakeJoins => if m.handshake == Dip then m.(handshake := Joined) else m
    case HandshakeEnters =>
      if m.handshake == Joined
      then m.(handshake := Entered, snd := Idle, rcv := Idle, listed := Connected, entered := true)
      else m
    case HandshakeUp => if m.handshake == Entered then m.(handshake := Up) else m
    case SocketDies(s) => if IsTerminal(s) then m.(handshake := Dead(s)) else m
    case DataArrives =>
      if m.entered && m.rcv in {Pending, Idle} then m.(rcv := MemberStatus.Running, data := true) else m
    case LinkStandsBy => if m.rcv == MemberStatus.Running then m.(rcv := Idle) else m
    case SendStarts => if m.entered && m.snd == Idle then m.(snd := MemberStatus.Running) else m
    case SendStops => if m.snd == MemberStatus.Running then m.(snd := Idle) else m
    case SendBreaks => m.(snd := MemberStatus.Broken)
    case ReceiveBreaks => m.(rcv := MemberStatus.Broken)
    case ListsDead(s) => if IsTerminal(s) then m.(listed := s) else m
    case BridgeReadsLive => m.(look := LiveRead(Live(m)))
    case BridgeReadsListing =>
      if m.look.LiveRead? then m.(look := Looked(m.look.live, Listing(m))) else m
  }

  function Run(m: Member, acts: seq<Act>): Member {
    if acts == [] then m else Do(Run(m, acts[..|acts| - 1]), acts[|acts| - 1])
  }

  /** A member just added to the group; its two directions and its row may hold anything but a
      member in use. */
  ghost predicate Added(m: Member) {
    && m.connect == ToRead && m.handshake == Shaking && m.look == NoLook
    && !m.entered && !m.overwritten && !m.data
    && m.snd != MemberStatus.Running && m.rcv != MemberStatus.Running
  }

  ghost predicate Inv(m: Member) {
    && (m.handshake in {Entered, Up} ==> m.entered)
    && (m.handshake in {Shaking, Dip, Joined} ==> !m.entered)
    && (m.handshake.Dead? ==> IsTerminal(m.handshake.status))
    && (m.overwritten ==> m.entered && m.connect == Written)
    && (m.entered && !m.overwritten ==>
          && m.snd in {Idle, MemberStatus.Running, MemberStatus.Broken}
          && (m.listed == Connected || IsTerminal(m.listed)))
    && (m.overwritten ==> m.snd in {Pending, MemberStatus.Broken})
    && (m.overwritten && !m.data ==> m.rcv in {Pending, MemberStatus.Broken})
    && (!m.entered ==> m.snd != MemberStatus.Running && m.rcv != MemberStatus.Running)
    && (m.look.LiveRead? && m.look.live == Connected ==> m.entered)
    && (m.look.Looked? && m.look.live == Connected ==>
          && m.entered
          && (m.look.row.member == Pending || m.look.row.listed == Connecting ==> m.overwritten))
  }

  lemma InvKept(m: Member, a: Act)
    requires Inv(m)
    ensures Inv(Do(m, a))
  {
  }

  lemma {:induction false} InvHolds(m: Member, acts: seq<Act>)
    requires Added(m)
    ensures Inv(Run(m, acts))
  {
    if acts != [] {
      InvHolds(m, acts[..|acts| - 1]);
      InvKept(Run(m, acts[..|acts| - 1]), acts[|acts| - 1]);
    }
  }

  /** Overwritten once, overwritten for good: the send side is Pending or Broken, never in use,
      and Broken never heals. */
  lemma {:induction false} OverwrittenNeverSends(m: Member, acts: seq<Act>, more: seq<Act>)
    requires Added(m) && Run(m, acts).overwritten
    ensures Run(m, acts + more).overwritten
    ensures Run(m, acts + more).snd in {Pending, MemberStatus.Broken}
    ensures Run(m, acts).snd == MemberStatus.Broken ==> Run(m, acts + more).snd == MemberStatus.Broken
  {
    if more == [] {
      assert acts + more == acts;
      InvHolds(m, acts);
    } else {
      var init := more[..|more| - 1];
      assert (acts + more)[..|acts + more| - 1] == acts + init;
      OverwrittenNeverSends(m, acts, init);
      InvHolds(m, acts + init);
      OverwrittenStays(Run(m, acts + init), more[|more| - 1]);
      hide Do, Inv;
    }
  }

  lemma OverwrittenStays(m: Member, a: Act)
    requires Inv(m) && m.overwritten
    ensures Do(m, a).overwritten && Do(m, a).snd in {Pending, MemberStatus.Broken}
    ensures m.snd == MemberStatus.Broken ==> Do(m, a).snd == MemberStatus.Broken
  {
  }

  /** Soundness: an unforced Stranded verdict is read only of a member whose handshake the
      connect call wrote over, and libsrt never sends on that member again. */
  lemma StrandedIsFinal(m: Member, acts: seq<Act>, backup: bool, more: seq<Act>)
    requires Added(m)
    requires var look := Run(m, acts).look;
             look.Looked? && ClassifyWatched(look.live, Some(look.row), false, backup) == Stranded
    ensures Run(m, acts).overwritten
    ensures Run(m, acts + more).snd in {Pending, MemberStatus.Broken}
  {
    InvHolds(m, acts);
    OverwrittenNeverSends(m, acts, more);
  }

  /** Completeness: at the instant the listing is read after a live CONNECTED, the unforced
      verdict is Stranded exactly of an overwritten member not listed Broken whose receive side
      does not hide it; without data since the overwrite the verdict is Stranded or BrokenLive,
      and in a backup group it is never Confirmed. */
  lemma OverwriteIsRead(m: Member, acts: seq<Act>, backup: bool)
    requires Added(m) && Run(m, acts).look == LiveRead(Connected)
    ensures var at := Run(m, acts);
            var look := Run(m, acts + [BridgeReadsListing]).look;
            && look == Looked(Connected, Listing(at))
            && var v := ClassifyWatched(look.live, Some(look.row), false, backup);
            && (v == Stranded <==>
                  && at.overwritten && Listing(at).member != MemberStatus.Broken
                  && (at.rcv == MemberStatus.Running ==> at.listed == Connecting))
            && (v == BrokenLive <==> Listing(at).member == MemberStatus.Broken)
            && (v == Confirmed <==>
                  at.listed == Connected
                  && (Listing(at).member == Idle || (Listing(at).member == MemberStatus.Running && !backup)))
            && (v == Masked <==> at.listed == Connected && Listing(at).member == MemberStatus.Running && backup)
            && (at.overwritten && !at.data ==> v == Stranded || v == BrokenLive)
            && (at.overwritten && backup ==> v != Confirmed)
            && (at.overwritten && at.snd == Pending ==> Listing(at).member != MemberStatus.Broken)
  {
    InvHolds(m, acts);
    assert (acts + [BridgeReadsListing])[..|acts|] == acts;
  }
}
