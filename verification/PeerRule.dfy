/** "The peer must never list more members than the bond has, nor none": how far the code keeps
    it. Exactly when a look empties the peer, exactly when it begins an overlap, and of how many. */
module PeerRule {
  import opened SrtTypes
  import opened Watch
  import opened Journal
  import opened RepairPlan
  import opened CheckGroup
  import opened GroupLaws
  import opened PassSafety
  import opened Lingering
  import opened Clocks
  import opened PassTheorems
  import opened Overlaps

  // ── The guards ──

  /** The two readings a repair takes of members other than `ids`: up, or up though listed Broken. */
  ghost predicate RestUp(ps: Pass, ids: seq<SocketId>, c: Context, a: Answers) {
    OtherAtPeer(c.rows, ids, a.peer) || OtherBrokenLive(Members(ps), c.rows, ids, a.broken)
  }

  ghost predicate AnyUp(ids: seq<SocketId>, a: Answers) {
    exists x | x in ids :: SockState(a.peer, x) == Connected
  }

  /** A repair that closes its chain with nothing else up: another member not watched carries the
      token; or none does, and the budget is spent, or nothing is worth waiting for and libsrt
      grants no replacement. */
  ghost predicate GivesUp(ps: Pass, w: Watched, c: Context, a: Answers) {
    match Sibling(w, ps.watched, ps.spawned, c.rows, a)
    case Some((_, watched)) => !watched
    case None =>
      w.repairs >= MAX_STRANDED_REPAIRS || (a.connect.None? && !OtherHandshaking(Members(ps), Chain(w), c.now))
  }

  /** A repair that lets another member take over first: nothing else is up or shakes hands, and a
      watched member carries the token; or none does, budget is left, and libsrt grants one. */
  ghost predicate MakesFirst(ps: Pass, w: Watched, c: Context, a: Answers) {
    && !RestUp(ps, Chain(w), c, a)
    && !OtherHandshaking(Members(ps), Chain(w), c.now)
    && match Sibling(w, ps.watched, ps.spawned, c.rows, a)
       case Some((_, watched)) => watched
       case None => w.repairs < MAX_STRANDED_REPAIRS && a.connect.Some?
  }

  /** The member's clock lets a look repair it. */
  ghost predicate RepairDue(w: Watched, c: Context) {
    match VerdictAt(w, c)
    case Stranded | BrokenLive => c.now - w.strandedSince.GetOr(c.now) >= STRANDED_MEMBER_GRACE
    case Handshaking => c.now >= w.resolveBy && !IsTerminal(w.live)
    case _ => false
  }

  /** The linger of what it supersedes has run out. */
  ghost predicate LingerOver(w: Watched, c: Context) {
    w.supersedes != [] && w.closeSupersededAt.Some? && c.now >= w.closeSupersededAt.value
  }

  /** `ids` hold someone up, and no one else is. */
  ghost predicate LastUp(ps: Pass, ids: seq<SocketId>, c: Context, a: Answers) {
    AnyUp(ids, a) && !RestUp(ps, ids, c, a)
  }

  /** The guards under which a look empties the peer: the member looked at is gone, or is up and its
      linger over, and those it supersedes are the last up, itself included among the rest; or it
      is dead past its deadline, or its repair gives up, and its chain is the last up. */
  ghost predicate Empties(ps: Pass, c: Context, a: Answers)
    requires ps.idx < |ps.watched|
  {
    var w := ps.watched[ps.idx];
    var verdict := VerdictAt(w, c);
    && w.notBefore <= c.now
    && (|| ((verdict == Gone || (IsUp(verdict) && LingerOver(w, c))) && LastUp(ps, w.supersedes, c, a))
        || (verdict == Handshaking && c.now >= w.resolveBy && IsTerminal(w.live) && LastUp(ps, Chain(w), c, a))
        || (RepairDue(w, c) && GivesUp(ps, w, c, a) && LastUp(ps, Chain(w), c, a)))
  }

  /** A member this look closes was read up, and no member open after it was: listed, or listed
      Broken and watched, on a connected socket. */
  ghost predicate Emptied(ps: Pass, c: Context, a: Answers) {
    var q := Look(ps, c, a);
    && ps.closed <= q.closed && AnyUp(q.closed[|ps.closed|..], a)
    && !(exists x :: PeerHas(x, q.closed, Members(ps), c.rows, a))
  }

  // ── What the guards mean ──

  lemma RestUpExactly(ps: Pass, ids: seq<SocketId>, c: Context, a: Answers)
    ensures RestUp(ps, ids, c, a) <==> exists x :: PeerHas(x, ids, Members(ps), c.rows, a)
  {
    var members := Members(ps);
    if r :| r in c.rows && r.id !in ids && AtPeer(r.member, SockState(a.peer, r.id)) {
      assert PeerHas(r.id, ids, members, c.rows, a);
    }
    if e :| && e in members && e.id !in ids && ListedBroken(c.rows, e.id)
            && SockState(a.broken, e.id) == Connected {
      assert PeerHas(e.id, ids, members, c.rows, a);
    }
  }

  /** Judging a member changes nothing its plan is chosen by. */
  lemma SamePlan(ps: Pass, v: Watched, c: Context, a: Answers)
    requires ps.idx < |ps.watched|
    requires var w := ps.watched[ps.idx];
             v.id == w.id && v.endpoint == w.endpoint && v.supersedes == w.supersedes && v.repairs == w.repairs
             && v.live == w.live && v.resolveBy == w.resolveBy
    ensures var w, q := ps.watched[ps.idx], Put(ps, v);
            PlanAt(q, VerdictAt(w, c), c, a) ==
            PlanRepair(w, VerdictAt(w, c) == BrokenLive, ps.watched, ps.spawned, c.rows, c.now, a)
  {
    var w, q := ps.watched[ps.idx], Put(ps, v);
    var was, now := ps.watched + ps.spawned, q.watched + q.spawned;
    assert Chain(v) == Chain(w);
    SameMembers(was, now, c, a, Chain(w));
    hide Chain, VerdictAt, OtherBrokenLive, OtherHandshaking, OtherAtPeer, MemberInFlight, HasId, WithToken;
  }

  lemma SameMembers(was: seq<Watched>, now: seq<Watched>, c: Context, a: Answers, chain: seq<SocketId>)
    requires |was| == |now|
    requires forall i | 0 <= i < |was| ::
               was[i].id == now[i].id && was[i].live == now[i].live && was[i].resolveBy == now[i].resolveBy
    ensures forall x :: HasId(was, x) <==> HasId(now, x)
    ensures OtherBrokenLive(was, c.rows, chain, a.broken) == OtherBrokenLive(now, c.rows, chain, a.broken)
    ensures OtherHandshaking(was, chain, c.now) == OtherHandshaking(now, chain, c.now)
  {
    hide ListedBroken;
    MembersInto(was, now, c, a, chain);
    MembersInto(now, was, c, a, chain);
  }

  lemma MembersInto(was: seq<Watched>, now: seq<Watched>, c: Context, a: Answers, chain: seq<SocketId>)
    requires |was| == |now|
    requires forall i | 0 <= i < |was| ::
               was[i].id == now[i].id && was[i].live == now[i].live && was[i].resolveBy == now[i].resolveBy
    ensures forall x :: HasId(was, x) ==> HasId(now, x)
    ensures OtherBrokenLive(was, c.rows, chain, a.broken) ==> OtherBrokenLive(now, c.rows, chain, a.broken)
    ensures OtherHandshaking(was, chain, c.now) ==> OtherHandshaking(now, chain, c.now)
  {
    hide ListedBroken;
    forall e | e in was
      ensures exists f | f in now :: f.id == e.id && f.live == e.live && f.resolveBy == e.resolveBy
    {
      var i :| 0 <= i < |was| && was[i] == e;
      assert now[i] in now;
    }
  }

  /** When a look comes to a plan, and which: by the guards as the look found them. */
  lemma PlanGuards(ps: Pass, c: Context, a: Answers)
    requires ps.idx < |ps.watched|
    ensures var w := ps.watched[ps.idx];
            && (PlanOf(ps, c, a).Some? <==> w.notBefore <= c.now && RepairDue(w, c))
            && var plan := PlanRepair(w, VerdictAt(w, c) == BrokenLive, ps.watched, ps.spawned, c.rows, c.now, a);
               (PlanOf(ps, c, a).Some? ==> PlanOf(ps, c, a).value == plan)
  {
    var w, at := ps.watched[ps.idx], At(ps, a);
    RepairStep(ps, c, a);
    if PlanOf(ps, c, a).Some? {
      JudgedMember(at, c, a);
      var j := Judged(at, c, a).0;
      var v := j.watched[ps.idx];
      SamePlan(at, v, c, a);
      hide Judged, Linger, PlanRepair, VerdictAt;
      assert j.watched == Put(at, v).watched && j.spawned == at.spawned;
    }
    hide Judged, VerdictAt;
  }

  /** Every close of a look, by its guards. */
  ghost function ClosesOf(ps: Pass, c: Context, a: Answers): seq<SocketId>
    requires ps.idx < |ps.watched|
  {
    var w, plan := ps.watched[ps.idx], PlanOf(ps, c, a);
    if w.notBefore > c.now then []
    else if IsUp(VerdictAt(w, c)) then Linger(w, VerdictAt(w, c), c.now, a).1
    else if VerdictAt(w, c) == Gone then w.supersedes
    else if plan == None then
      if VerdictAt(w, c) == Handshaking && c.now >= w.resolveBy then [w.id] + w.supersedes else []
    else if plan == Some(Wait) || plan.value.HandToSibling? || (plan == Some(SpawnThenClose) && a.connect.Some?) then []
    else Chain(w)
  }

  lemma LookClosesThese(ps: Pass, c: Context, a: Answers)
    requires ps.idx < |ps.watched| && Accounted(ps)
    ensures Look(ps, c, a).closed == ps.closed + ClosesOf(ps, c, a)
  {
    var w, at := ps.watched[ps.idx], At(ps, a);
    if w.notBefore <= c.now {
      var j := Judged(at, c, a);
      JudgedMember(at, c, a);
      StepCloses(j.0, j.1, VerdictAt(w, c), c, a);
      if PlanOf(ps, c, a).Some? {
        RepairLook(ps, c, a);
        RepairStep(ps, c, a);
        var plan, v := PlanOf(ps, c, a).value, j.0.watched[ps.idx];
        assert Chain(v) == Chain(w);
        if plan.HandToSibling? {
          HandFindsSibling(ps, c, a);
        } else if plan != Wait {
          RepairedCloses(Take(j.0), v, plan, c, a);
        }
        hide Judged, Linger, VerdictAt, PlanRepair, Repaired, Look;
      } else {
        PlainStep(at, c, a);
        hide Judged, Linger, VerdictAt, PlanRepair;
      }
    }
  }

  lemma RepairedCloses(ps: Pass, w: Watched, plan: Plan, c: Context, a: Answers)
    requires plan != Wait && !plan.HandToSibling?
    ensures Repaired(ps, w, plan, c, a).closed == ps.closed +
            if plan == SpawnThenClose && a.connect.Some? then [] else Chain(w)
  {
  }

  /** A chain handed to a sibling is handed, not closed: the sibling is still there. */
  lemma HandFindsSibling(ps: Pass, c: Context, a: Answers)
    requires ps.idx < |ps.watched| && Accounted(ps)
    requires PlanOf(ps, c, a).Some? && PlanOf(ps, c, a).value.HandToSibling?
    ensures Look(ps, c, a).closed == ps.closed
  {
    RepairLook(ps, c, a);
    HandFinds(ps, c, a);
    hide Judged, VerdictAt, PlanRepair;
  }

  /** The closes of a look that does not repair. */
  lemma PlainStep(ps: Pass, c: Context, a: Answers)
    requires ps.idx < |ps.watched|
    ensures var w, j := ps.watched[ps.idx], Judged(ps, c, a);
            j.1 != Repair ==>
              Stepped(j.0, j.1, VerdictAt(w, c), c, a).closed == ps.closed +
                if IsUp(VerdictAt(w, c)) then Linger(w, VerdictAt(w, c), c.now, a).1
                else if VerdictAt(w, c) == Gone then w.supersedes
                else if VerdictAt(w, c) == Handshaking && c.now >= w.resolveBy then [w.id] + w.supersedes
                else []
  {
    hide VerdictAt;
  }

  // ── Never none ──

  /** What a look closes when it is not to stay its hand, by its guards; a plan that closes first
      has found the rest up. */
  lemma ClosesByGuards(ps: Pass, c: Context, a: Answers)
    requires ps.idx < |ps.watched|
    ensures LastUp(ps, ClosesOf(ps, c, a), c, a) <==> Empties(ps, c, a)
  {
    PlanGuards(ps, c, a);
    LingerCloses(ps.watched[ps.idx], VerdictAt(ps.watched[ps.idx], c), c, a);
    hide VerdictAt, PlanOf, Sibling, OtherAtPeer, OtherBrokenLive, OtherHandshaking;
    SameIdsSameUp(ps, ps.watched[ps.idx], c, a);
  }

  lemma LingerCloses(w: Watched, verdict: Verdict, c: Context, a: Answers)
    ensures IsUp(verdict) ==> Linger(w, verdict, c.now, a).1 == if LingerOver(w, c) then w.supersedes else []
  {
  }

  /** In whatever order, the ids of a chain are the same, and no one is up among none. */
  lemma SameIdsSameUp(ps: Pass, w: Watched, c: Context, a: Answers)
    ensures LastUp(ps, [w.id] + w.supersedes, c, a) == LastUp(ps, Chain(w), c, a)
    ensures !LastUp(ps, [], c, a)
  {
    var other := [w.id] + w.supersedes;
    assert forall x :: x in other <==> x in Chain(w);
    assert OtherAtPeer(c.rows, other, a.peer) == OtherAtPeer(c.rows, Chain(w), a.peer);
    assert OtherBrokenLive(Members(ps), c.rows, other, a.broken) ==
           OtherBrokenLive(Members(ps), c.rows, Chain(w), a.broken);
  }

  /** A look empties the peer exactly under the guards of `Empties`: every other look that closes a
      member read up leaves one open that is. */
  lemma PeerIsEmptiedExactly(ps: Pass, c: Context, a: Answers, tok: SocketId -> int)
    requires ps.idx < |ps.watched| && Accounted(ps) && Faithful(ps, c, a, tok)
    ensures Emptied(ps, c, a) <==> Empties(ps, c, a)
  {
    var q, ids := Look(ps, c, a), ClosesOf(ps, c, a);
    LookClosesThese(ps, c, a);
    ClosesByGuards(ps, c, a);
    RestUpExactly(ps, ids, c, a);
    assert q.closed[|ps.closed|..] == ids;
    hide Look, Empties, ClosesOf, RestUp;
    forall x ensures PeerHas(x, q.closed, Members(ps), c.rows, a) <==> PeerHas(x, ids, Members(ps), c.rows, a) {
      if x in ps.closed { assert SockState(a.peer, x) != Connected && SockState(a.broken, x) != Connected; }
    }
    hide PeerHas, Faithful;
  }

  /** An up member's look empties the peer only with its own socket read dead, or not yet up. */
  lemma UpEmptiesOnlyDead(ps: Pass, c: Context, a: Answers)
    requires ps.idx < |ps.watched| && Accounted(ps)
    ensures var w := ps.watched[ps.idx];
            IsUp(VerdictAt(w, c)) && Empties(ps, c, a) ==> SockState(a.peer, w.id) != Connected
  {
    var w := ps.watched[ps.idx];
    OwnIdOnce(ps, w);
  }

  // Member 2, which replaced 1, is listed up but its socket has died; its linger is over.
  const DEAD_UP := Watched(2, Endpoint(0, 7), SocketStatus.Broken, 0, 0, None, 0, [1], Some(0), false)
  const DEAD_UP_ROWS := [Row(1, 7, Pending, Connected), Row(2, 7, Idle, Connected)]
  const DEAD_UP_LIVE: Sockets := map[1 := Connected, 2 := SocketStatus.Broken]

  /** Such a look empties the peer: it closes the one member that reads CONNECTED. */
  lemma DeadUpEmpties()
    ensures var ps := Pass([DEAD_UP], 0, [], [1, 2], [], [], [], {1}, 0, []);
            var c := Context(DEAD_UP_ROWS, 0, false);
            var a := Answers(DEAD_UP_LIVE, DEAD_UP_LIVE, DEAD_UP_LIVE, {}, 0, 0, None, 0);
            && Accounted(ps) && Faithful(ps, c, a, (x: SocketId) => 7) && VerdictAt(DEAD_UP, c) == Confirmed
            && Emptied(ps, c, a) && Look(ps, c, a).closed == [1]
  {
    var ps := Pass([DEAD_UP], 0, [], [1, 2], [], [], [], {1}, 0, []);
    var c := Context(DEAD_UP_ROWS, 0, false);
    var a := Answers(DEAD_UP_LIVE, DEAD_UP_LIVE, DEAD_UP_LIVE, {}, 0, 0, None, 0);
    var tok := (x: SocketId) => 7;
    forall x ensures Net(ps, x) == 0 {
      assert [DEAD_UP][..0] == [];
      assert Sum([DEAD_UP], Holds(x)) == multiset([1] + [2])[x];
    }
    assert FindRow(DEAD_UP_ROWS, 2) == Some(DEAD_UP_ROWS[1]) by { assert DEAD_UP_ROWS[1..][0] == DEAD_UP_ROWS[1]; }
    assert DEAD_UP_ROWS[0] in DEAD_UP_ROWS;
    assert Faithful(ps, c, a, tok);
    assert 1 in DEAD_UP.supersedes && SockState(a.peer, 1) == Connected;
    assert !RestUp(ps, DEAD_UP.supersedes, c, a);
    assert VerdictAt(DEAD_UP, c) == Confirmed;
    assert Empties(ps, c, a);
    PeerIsEmptiedExactly(ps, c, a, tok);
    LookClosesThese(ps, c, a);
    hide Look, Emptied, Empties, Net;
  }

  /** The member whose linger has run out is up, listed connected, and not closed by its look. */
  lemma UpStaysOpen(ps: Pass, c: Context, a: Answers, tok: SocketId -> int)
    requires PassInv(ps, c.now, tok) && ps.idx < |ps.watched|
    requires var w := ps.watched[ps.idx]; IsUp(VerdictAt(w, c))
    ensures var w := ps.watched[ps.idx];
            && w.id !in Look(ps, c, a).closed
            && exists r | r in c.rows :: r.id == w.id && r.listed == Connected && r.member != MemberStatus.Broken
  {
    var w := ps.watched[ps.idx];
    LookClosesThese(ps, c, a);
    assert w in Members(ps) && w.id in Chain(w);
    TrackedIsOpen(ps, w, w.id);
    OwnIdOnce(ps, w);
    hide Look, PassInv;
  }

  lemma OwnIdOnce(ps: Pass, w: Watched)
    requires Accounted(ps) && w in ps.watched
    ensures w.id !in w.supersedes
  {
    SumHasTerm(ps.watched, w, Holds(w.id));
    assert Net(ps, w.id) == 0;
    assert multiset(Chain(w)) == multiset(w.supersedes) + multiset{w.id};
  }

  // ── Never more ──

  /** A look begins an overlap exactly when a repair is due, under the guards of `MakesFirst`. */
  lemma OverlapBeginsExactly(ps: Pass, c: Context, a: Answers, tok: SocketId -> int)
    requires PassInv(ps, c.now, tok) && Agrees(ps) && ps.idx < |ps.watched|
    ensures var w, q := ps.watched[ps.idx], Look(ps, c, a);
            (exists i | |ps.log| <= i < |q.log| :: TakesOver(q.log, i)) <==>
              w.notBefore <= c.now && RepairDue(w, c) && MakesFirst(ps, w, c, a)
  {
    OverlapsExactly(ps, c, a, tok);
    PlanGuards(ps, c, a);
    hide Look, VerdictAt, PlanOf, Sibling, OtherAtPeer, OtherBrokenLive, OtherHandshaking;
    hide PassInv, Agrees, RepairDue, Chain, TakesOver;
  }

  lemma {:induction false} DistinctSize(s: seq<SocketId>)
    requires forall x :: multiset(s)[x] <= 1
    ensures |Elems(s)| == |s|
  {
    if s == [] {
      assert Elems(s) == {};
    } else {
      var n := |s| - 1;
      var last := s[n];
      assert multiset(s)[last] <= 1;
      assert s == s[..n] + [last];
      forall x ensures multiset(s[..n])[x] <= 1 { assert multiset(s)[x] <= 1; }
      DistinctSize(s[..n]);
      assert last !in multiset(s[..n]);
      assert Elems(s) == Elems(s[..n]) + {last} && last !in Elems(s[..n]);
    }
  }

  /** The overlap a spawn begins is of the whole chain and its replacement, all open: one member
      more than the chain has, none of them counted twice. */
  lemma OverlapSize(ps: Pass, c: Context, a: Answers, tok: SocketId -> int)
    requires PassInv(ps, c.now, tok) && Ready(ps, c, a, tok)
    ensures PlanOf(ps, c, a) == Some(SpawnThenClose) && a.connect.Some? ==>
              var w := ps.watched[ps.idx];
              var open := Elems(Chain(w)) + {a.connect.value};
              && (forall x | x in open :: x !in Look(ps, c, a).closed)
              && |open| == |Chain(w)| + 1
  {
    if PlanOf(ps, c, a) == Some(SpawnThenClose) && a.connect.Some? {
      var w := ps.watched[ps.idx];
      LookClosesThese(ps, c, a);
      PlanNotUp(ps, c, a);
      assert Look(ps, c, a).closed == ps.closed;
      ChainIsOpen(ps, c, w);
      if a.connect.value in ps.closed { ClosedWasBorn(ps, a.connect.value); }
      hide Look, PlanOf, Chain, PassInv, Members, ClosesOf, Ready, VerdictAt;
      assert a.connect.value !in Chain(w);
    }
  }

  lemma ChainIsOpen(ps: Pass, c: Context, w: Watched)
    requires Accounted(ps) && w in ps.watched
    ensures forall x | x in Chain(w) :: x !in ps.closed && x in ps.born
    ensures |Elems(Chain(w))| == |Chain(w)|
  {
    assert w in Members(ps);
    forall x | x in Chain(w) ensures x !in ps.closed && x in ps.born { TrackedIsOpen(ps, w, x); }
    forall x ensures multiset(Chain(w))[x] <= 1 {
      SumHasTerm(ps.watched, w, Holds(x));
      assert Net(ps, x) == 0;
    }
    DistinctSize(Chain(w));
  }

  lemma PlanNotUp(ps: Pass, c: Context, a: Answers)
    requires PlanOf(ps, c, a).Some?
    ensures VerdictAt(ps.watched[ps.idx], c) in {Stranded, BrokenLive, Handshaking}
  {
    PlanGuards(ps, c, a);
    hide VerdictAt, PlanOf;
  }
}
