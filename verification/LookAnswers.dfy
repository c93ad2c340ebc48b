/** What one look makes of a member, told by what was read of it: its live state, its row, its
    clocks and the group's type. Every case is here, and what each repair leaves. */
module LookAnswers {
  import opened SrtTypes
  import opened Watch
  import opened Journal
  import opened RepairPlan
  import opened CheckGroup
  import opened GroupLaws
  import opened PassSafety
  import opened Clocks
  import opened PassTheorems
  import opened PeerRule

  // ── What is read of a member ──

  /** `r` is the first row listing `id`. */
  ghost predicate Lists(rows: seq<Row>, id: SocketId, r: Row) {
    exists k | 0 <= k < |rows| :: rows[k] == r && r.id == id && forall j | 0 <= j < k :: rows[j].id != id
  }

  ghost predicate IsDead(s: SocketStatus) {
    s == SocketStatus.Broken || s == Closing || s == Closed || s == NonExist
  }

  /** Not in the listing any more, or listed Broken with its socket not connected. */
  ghost predicate ReadGone(w: Watched, rows: seq<Row>) {
    || (forall r | r in rows :: r.id != w.id)
    || exists r :: Lists(rows, w.id, r) && r.member == MemberStatus.Broken && w.live != Connected
  }

  /** On a connected socket, and listed Broken, Pending or still connecting, or marked so. */
  ghost predicate ReadStranded(w: Watched, rows: seq<Row>) {
    w.live == Connected &&
    exists r :: Lists(rows, w.id, r)
                && (r.member == MemberStatus.Broken || r.member == Pending || r.listed == Connecting || w.forced)
  }

  /** Listed connected, as `member`, and not stranded. */
  ghost predicate ReadUp(w: Watched, rows: seq<Row>, member: MemberStatus) {
    && member in {Idle, Running}
    && !(w.live == Connected && w.forced)
    && exists r :: Lists(rows, w.id, r) && r.listed == Connected && r.member == member
  }

  lemma {:induction false} ListsIsFound(rows: seq<Row>, id: SocketId, r: Row)
    ensures Lists(rows, id, r) <==> FindRow(rows, id) == Some(r)
  {
    if rows != [] && rows[0].id != id {
      ListsIsFound(rows[1..], id, r);
      if Lists(rows[1..], id, r) {
        var k :| 0 <= k < |rows[1..]| && rows[1..][k] == r && r.id == id
                && forall j | 0 <= j < k :: rows[1..][j].id != id;
        assert forall j | 1 <= j <= k :: rows[j] == rows[1..][j - 1];
        assert rows[k + 1] == r;
      }
      if Lists(rows, id, r) {
        var k :| 0 <= k < |rows| && rows[k] == r && r.id == id && forall j | 0 <= j < k :: rows[j].id != id;
        assert rows[1..][k - 1] == r;
      }
    }
  }

  /** The readings fix the verdict: each of them, and up to one. */
  lemma ReadingsAreVerdicts(w: Watched, c: Context)
    ensures ReadGone(w, c.rows) <==> VerdictAt(w, c) == Gone
    ensures ReadStranded(w, c.rows) <==> VerdictAt(w, c) in {Stranded, BrokenLive}
    ensures ReadUp(w, c.rows, Idle) || (ReadUp(w, c.rows, Running) && !c.backup) <==> VerdictAt(w, c) == Confirmed
    ensures ReadUp(w, c.rows, Running) && c.backup <==> VerdictAt(w, c) == Masked
    ensures VerdictAt(w, c) == BrokenLive <==>
            w.live == Connected && exists r :: Lists(c.rows, w.id, r) && r.member == MemberStatus.Broken
  {
    forall r ensures Lists(c.rows, w.id, r) <==> FindRow(c.rows, w.id) == Some(r) { ListsIsFound(c.rows, w.id, r); }
    var found := FindRow(c.rows, w.id);
    if found.Some? { assert Lists(c.rows, w.id, found.value); }
    hide Lists, FindRow;
  }

  // ── A member that stays, and one that leaves ──

  /** Nothing happens to the group but that the member looked at becomes `v`, and stays. */
  ghost predicate Stays(ps: Pass, q: Pass, v: Watched)
    requires ps.idx < |ps.watched|
  {
    && q.watched == ps.watched[ps.idx := v] && q.idx == ps.idx + 1 && q.spawned == ps.spawned
    && q.released == ps.released && q.born == ps.born && q.repairs == ps.repairs
  }

  /** The member looked at leaves the watched ones; the loop goes on with another in its place. */
  ghost predicate Leaves(ps: Pass, q: Pass)
    requires ps.idx < |ps.watched|
  {
    multiset(q.watched) == multiset(ps.watched) - multiset{ps.watched[ps.idx]} && q.idx == ps.idx
  }

  /** With the member looked at judged, and then taken out, it leaves. */
  lemma TakenLeaves(ps: Pass, c: Context, a: Answers)
    requires ps.idx < |ps.watched|
    ensures var j := Judged(At(ps, a), c, a).0;
            forall q: Pass | q.watched == Take(j).watched && q.idx == ps.idx :: Leaves(ps, q)
  {
    SwapRemoveMultiset(ps.watched, ps.idx);
    SwapRemovePut(ps.watched, ps.idx, Judged(At(ps, a), c, a).0.watched[ps.idx]);
    hide Linger, NextStep, VerdictAt, SwapRemove;
  }

  lemma SwapRemoveMultiset<T>(s: seq<T>, i: nat)
    requires i < |s|
    ensures multiset(SwapRemove(s, i)) == multiset(s) - multiset{s[i]}
  {
    var n := |s| - 1;
    assert s == s[..n] + [s[n]];
    if i == n {
      assert SwapRemove(s, i) == s[..n];
    } else {
      assert s[..n] == s[..i] + [s[i]] + s[i+1..n];
      assert SwapRemove(s, i) == s[..i] + [s[n]] + s[i+1..n];
    }
  }

  // ── The cases of a look ──

  /** A member not due yet is passed over. */
  lemma NotDueIsPassed(ps: Pass, c: Context, a: Answers)
    requires ps.idx < |ps.watched| && c.now < ps.watched[ps.idx].notBefore
    ensures var q := Look(ps, c, a);
            Stays(ps, q, ps.watched[ps.idx]) && q.closed == ps.closed && q.log == ps.log
  {
  }

  /** A member no longer there is released, and what it superseded is closed. */
  lemma GoneIsReleased(ps: Pass, c: Context, a: Answers)
    requires ps.idx < |ps.watched| && ps.watched[ps.idx].notBefore <= c.now
    requires ReadGone(ps.watched[ps.idx], c.rows)
    ensures var w, q := ps.watched[ps.idx], Look(ps, c, a);
            && Leaves(ps, q) && q.released == ps.released + [w.id] && q.closed == ps.closed + w.supersedes
            && q.spawned == ps.spawned && q.born == ps.born && q.repairs == ps.repairs
  {
    ReadingsAreVerdicts(ps.watched[ps.idx], c);
    hide VerdictAt, ReadGone, Judged, Look, Leaves, SwapRemove, PlanRepair, Repaired, Elems, EndsOf, Judging;
    JudgedMember(At(ps, a), c, a);
    Clocks.GoneDrops(At(ps, a), c, a);
    LookIsStep(ps, c, a);
    TakenLeaves(ps, c, a);
  }

  /** When a member up from now on may close what it supersedes. */
  ghost function MayClose(w: Watched, now: nat, a: Answers): nat {
    var longer := if a.rcvLatency >= a.peerLatency then a.rcvLatency else a.peerLatency;
    w.closeSupersededAt.GetOr(now + (if longer < 0 then 0 else longer) + 1000)
  }

  /** A member that is up closes what it superseded once it has been up, from its first such
      reading on, for the longer of its two latencies and a second. With nothing left to close it
      is released; but listed Running in a backup group, where that may hide a stranded sender, it
      is looked at again a second from now. Till then it stays. */
  lemma UpIsReleased(ps: Pass, c: Context, a: Answers, member: MemberStatus)
    requires ps.idx < |ps.watched| && ps.watched[ps.idx].notBefore <= c.now
    requires ReadUp(ps.watched[ps.idx], c.rows, member)
    ensures var w, q := ps.watched[ps.idx], Look(ps, c, a);
            var at := MayClose(w, c.now, a);
            var clear := w.supersedes == [] || c.now >= at;
            var v := w.(strandedSince := None,
                        closeSupersededAt := if w.supersedes == [] then w.closeSupersededAt else Some(at));
            && q.closed == ps.closed + (if clear then w.supersedes else [])
            && (!clear ==> Stays(ps, q, v))
            && (clear && member == Running && c.backup ==>
                  Stays(ps, q, v.(supersedes := [], notBefore := c.now + 1000)))
            && (clear && !(member == Running && c.backup) ==>
                  && Leaves(ps, q) && q.released == ps.released + [w.id]
                  && q.spawned == ps.spawned && q.born == ps.born && q.repairs == ps.repairs)
  {
    var w := ps.watched[ps.idx];
    ReadingsAreVerdicts(w, c);
    hide VerdictAt, ReadUp, Leaves, SwapRemove, Look, Stays, MayClose;
    if w.supersedes == [] || c.now >= MayClose(w, c.now, a) {
      if VerdictAt(w, c) == Confirmed { ClearLeaves(ps, c, a); } else { ClearStays(ps, c, a); }
    } else {
      LingerStays(ps, c, a);
    }
  }

  lemma LingerStays(ps: Pass, c: Context, a: Answers)
    requires ps.idx < |ps.watched| && ps.watched[ps.idx].notBefore <= c.now
    requires var w := ps.watched[ps.idx];
             VerdictAt(w, c) in {Confirmed, Masked} && w.supersedes != [] && c.now < MayClose(w, c.now, a)
    ensures var w, q := ps.watched[ps.idx], Look(ps, c, a);
            && Stays(ps, q, w.(strandedSince := None, closeSupersededAt := Some(MayClose(w, c.now, a))))
            && q.closed == ps.closed
  {
    hide VerdictAt, PlanRepair, Repaired, Judging;
  }

  lemma ClearLeaves(ps: Pass, c: Context, a: Answers)
    requires ps.idx < |ps.watched| && ps.watched[ps.idx].notBefore <= c.now
    requires var w := ps.watched[ps.idx];
             VerdictAt(w, c) == Confirmed && (w.supersedes == [] || c.now >= MayClose(w, c.now, a))
    ensures var w, q := ps.watched[ps.idx], Look(ps, c, a);
            && Leaves(ps, q) && q.released == ps.released + [w.id] && q.closed == ps.closed + w.supersedes
            && q.spawned == ps.spawned && q.born == ps.born && q.repairs == ps.repairs
  {
    hide VerdictAt, Judged, Linger, Look, Leaves, SwapRemove, PlanRepair, Repaired, Elems, EndsOf, Judging;
    JudgedMember(At(ps, a), c, a);
    ClearDrops(ps, c, a);
    LookIsStep(ps, c, a);
    TakenLeaves(ps, c, a);
  }

  lemma ClearDrops(ps: Pass, c: Context, a: Answers)
    requires ps.idx < |ps.watched|
    requires var w := ps.watched[ps.idx];
             VerdictAt(w, c) == Confirmed && (w.supersedes == [] || c.now >= MayClose(w, c.now, a))
    ensures var w, j := ps.watched[ps.idx], Judged(At(ps, a), c, a);
            && j.1 == Drop && j.0.watched[ps.idx].supersedes == []
            && Linger(w, VerdictAt(w, c), c.now, a).1 == w.supersedes
  {
    hide VerdictAt, Elems, EndsOf, Judging;
  }

  lemma ClearStays(ps: Pass, c: Context, a: Answers)
    requires ps.idx < |ps.watched| && ps.watched[ps.idx].notBefore <= c.now
    requires var w := ps.watched[ps.idx];
             VerdictAt(w, c) == Masked && (w.supersedes == [] || c.now >= MayClose(w, c.now, a))
    ensures var w, q := ps.watched[ps.idx], Look(ps, c, a);
            var since := if w.supersedes == [] then w.closeSupersededAt else Some(MayClose(w, c.now, a));
            && Stays(ps, q, w.(strandedSince := None, closeSupersededAt := since, supersedes := [],
                               notBefore := c.now + 1000))
            && q.closed == ps.closed + w.supersedes
  {
    hide VerdictAt, PlanRepair, Repaired, Elems, EndsOf, Judging;
  }

  /** What is put at `i` before it is taken out does not matter. */
  lemma SwapRemovePut<T>(s: seq<T>, i: nat, x: T)
    requires i < |s|
    ensures SwapRemove(s[i := x], i) == SwapRemove(s, i)
  {
  }

  /** A stranded member is left for 500 ms from its first such reading; then it is repaired. */
  lemma StrandedIsRepaired(ps: Pass, c: Context, a: Answers)
    requires ps.idx < |ps.watched| && ps.watched[ps.idx].notBefore <= c.now
    requires ReadStranded(ps.watched[ps.idx], c.rows)
    ensures var w, q := ps.watched[ps.idx], Look(ps, c, a);
            var since := w.strandedSince.GetOr(c.now);
            && (c.now - since < 500 ==> Stays(ps, q, w.(strandedSince := Some(since))) && q.closed == ps.closed)
            && (c.now - since >= 500 ==> Repairs(ps, w.(strandedSince := Some(since)), c, a, q))
  {
    var w := ps.watched[ps.idx];
    ReadingsAreVerdicts(w, c);
    hide VerdictAt, ReadStranded, Repairs, Stays, Look, Judged;
    if c.now - w.strandedSince.GetOr(c.now) >= 500 {
      StrandedRepairs(ps, c, a);
      LookRepairs(ps, c, a);
    } else {
      StrandedStays(ps, c, a);
    }
  }

  lemma StrandedStays(ps: Pass, c: Context, a: Answers)
    requires ps.idx < |ps.watched| && ps.watched[ps.idx].notBefore <= c.now
    requires var w := ps.watched[ps.idx];
             VerdictAt(w, c) in {Stranded, BrokenLive} && c.now - w.strandedSince.GetOr(c.now) < 500
    ensures var w, q := ps.watched[ps.idx], Look(ps, c, a);
            Stays(ps, q, w.(strandedSince := Some(w.strandedSince.GetOr(c.now)))) && q.closed == ps.closed
  {
    hide VerdictAt, Judging, PlanRepair, Repaired;
  }

  lemma StrandedRepairs(ps: Pass, c: Context, a: Answers)
    requires ps.idx < |ps.watched| && ps.watched[ps.idx].notBefore <= c.now
    requires var w := ps.watched[ps.idx];
             VerdictAt(w, c) in {Stranded, BrokenLive} && c.now - w.strandedSince.GetOr(c.now) >= 500
    ensures PlanOf(ps, c, a).Some?
    ensures var w := ps.watched[ps.idx];
            Judged(At(ps, a), c, a).0.watched[ps.idx] == w.(strandedSince := Some(w.strandedSince.GetOr(c.now)))
  {
    hide VerdictAt, Judging, PlanRepair, Repaired;
  }

  /** A member still in its handshake stays until its deadline; past it, one whose socket is dead is
      closed with what it superseded, and not released, and any other is repaired. */
  lemma HandshakeIsAwaited(ps: Pass, c: Context, a: Answers)
    requires ps.idx < |ps.watched| && ps.watched[ps.idx].notBefore <= c.now
    requires var w := ps.watched[ps.idx];
             !ReadGone(w, c.rows) && !ReadStranded(w, c.rows) && !ReadUp(w, c.rows, Idle) && !ReadUp(w, c.rows, Running)
    ensures var w, q := ps.watched[ps.idx], Look(ps, c, a);
            && (c.now < w.resolveBy ==> Stays(ps, q, w.(strandedSince := None)) && q.closed == ps.closed)
            && (c.now >= w.resolveBy && IsDead(w.live) ==>
                  && Leaves(ps, q) && q.closed == ps.closed + [w.id] + w.supersedes && q.released == ps.released
                  && q.spawned == ps.spawned && q.born == ps.born && q.repairs == ps.repairs)
            && (c.now >= w.resolveBy && !IsDead(w.live) ==> Repairs(ps, w.(strandedSince := None), c, a, q))
  {
    var w := ps.watched[ps.idx];
    ReadingsAreVerdicts(w, c);
    hide VerdictAt, ReadGone, ReadStranded, ReadUp, Repairs, Leaves, Stays, Look, Judged;
    assert VerdictAt(w, c) == Handshaking;
    if c.now < w.resolveBy {
      HandshakeStays(ps, c, a);
    } else if IsDead(w.live) {
      DeadHandshakeLeaves(ps, c, a);
    } else {
      HandshakeRepairs(ps, c, a);
      LookRepairs(ps, c, a);
    }
  }

  lemma HandshakeStays(ps: Pass, c: Context, a: Answers)
    requires ps.idx < |ps.watched| && ps.watched[ps.idx].notBefore <= c.now
    requires var w := ps.watched[ps.idx]; VerdictAt(w, c) == Handshaking && c.now < w.resolveBy
    ensures var q := Look(ps, c, a);
            Stays(ps, q, ps.watched[ps.idx].(strandedSince := None)) && q.closed == ps.closed
  {
    hide VerdictAt, Judging, PlanRepair, Repaired;
  }

  lemma HandshakeRepairs(ps: Pass, c: Context, a: Answers)
    requires ps.idx < |ps.watched| && ps.watched[ps.idx].notBefore <= c.now
    requires var w := ps.watched[ps.idx]; VerdictAt(w, c) == Handshaking && c.now >= w.resolveBy && !IsDead(w.live)
    ensures PlanOf(ps, c, a).Some?
    ensures Judged(At(ps, a), c, a).0.watched[ps.idx] == ps.watched[ps.idx].(strandedSince := None)
  {
    hide VerdictAt, Judging, PlanRepair, Repaired;
  }

  lemma DeadHandshakeLeaves(ps: Pass, c: Context, a: Answers)
    requires ps.idx < |ps.watched| && ps.watched[ps.idx].notBefore <= c.now
    requires var w := ps.watched[ps.idx]; VerdictAt(w, c) == Handshaking && c.now >= w.resolveBy && IsDead(w.live)
    ensures var w, q := ps.watched[ps.idx], Look(ps, c, a);
            && Leaves(ps, q) && q.closed == ps.closed + [w.id] + w.supersedes && q.released == ps.released
            && q.spawned == ps.spawned && q.born == ps.born && q.repairs == ps.repairs
  {
    Abandons(ps, c, a);
    hide VerdictAt, Judged, Look, Leaves, SwapRemove, PlanRepair, Repaired, Elems, EndsOf, Judging;
    JudgedMember(At(ps, a), c, a);
    LookIsStep(ps, c, a);
    TakenLeaves(ps, c, a);
  }

  lemma Abandons(ps: Pass, c: Context, a: Answers)
    requires ps.idx < |ps.watched|
    requires var w := ps.watched[ps.idx]; VerdictAt(w, c) == Handshaking && c.now >= w.resolveBy && IsDead(w.live)
    ensures var j := Judged(At(ps, a), c, a);
            j.1 == Abandon && j.0.watched[ps.idx].supersedes == ps.watched[ps.idx].supersedes
  {
    hide VerdictAt, Judging;
  }

  // ── Repairs ──

  /** A member connected to the endpoint of `w`, one repair deeper, and all its clocks. */
  ghost predicate Replaces(e: Watched, w: Watched, id: SocketId, supersedes: seq<SocketId>, c: Context, a: Answers) {
    e == Watched(id, w.endpoint, Init, c.now,
                 c.now + (if a.conntimeo <= 0 then 3000 else a.conntimeo) + 1000,
                 None, w.repairs + 1, supersedes, None, false)
  }

  /** Of the members `was`, the first with id `x` has taken over `chain`. */
  ghost predicate TakenOver(was: seq<Watched>, now: seq<Watched>, x: SocketId, chain: seq<SocketId>) {
    exists k | 0 <= k < |was| ::
      && was[k].id == x && (forall j | 0 <= j < k :: was[j].id != x)
      && now == was[k := was[k].(supersedes := was[k].supersedes + chain)]
  }

  /** A watched member `x` takes over the whole chain of the member looked at: nothing is closed. */
  ghost predicate HandsOn(ps: Pass, x: SocketId, q: Pass)
    requires ps.idx < |ps.watched|
  {
    var w := ps.watched[ps.idx];
    && q.closed == ps.closed && q.born == ps.born && |q.spawned| == |ps.spawned|
    && exists rest :: multiset(rest) == multiset(ps.watched) - multiset{w}
                      && TakenOver(rest + ps.spawned, q.watched + q.spawned, x, w.supersedes + [w.id])
  }

  /** The chain is closed, or is superseded by the member connected, which is the only one new. */
  ghost predicate Mends(ps: Pass, plan: Plan, c: Context, a: Answers, q: Pass)
    requires ps.idx < |ps.watched|
  {
    var w := ps.watched[ps.idx];
    var chain := w.supersedes + [w.id];
    && Leaves(ps, q)
    && if plan in {CloseThenSpawn, SpawnThenClose} && a.connect.Some?
       then
         && q.closed == ps.closed + (if plan == CloseThenSpawn then chain else [])
         && q.born == ps.born + [a.connect.value]
         && exists e :: Replaces(e, w, a.connect.value, if plan == CloseThenSpawn then [] else chain, c, a)
                        && q.spawned == ps.spawned + [e]
       else
         q.closed == ps.closed + chain && q.born == ps.born && q.spawned == ps.spawned
  }

  /** The repair of `v`, as the member looked at has become, by the plan chosen for it. */
  ghost predicate Repairs(ps: Pass, v: Watched, c: Context, a: Answers, q: Pass)
    requires ps.idx < |ps.watched|
  {
    var w := ps.watched[ps.idx];
    var broken := w.live == Connected && exists r :: Lists(c.rows, w.id, r) && r.member == MemberStatus.Broken;
    var plan := PlanRepair(w, broken, ps.watched, ps.spawned, c.rows, c.now, a);
    && q.released == ps.released
    && if plan == Wait then Stays(ps, q, v) && q.closed == ps.closed
       else
         && q.idx == ps.idx && q.repairs == ps.repairs + (if w.forced then 0 else 1)
         && if plan.HandToSibling? then HandsOn(ps, plan.other, q) else Mends(ps, plan, c, a, q)
  }

  lemma LookRepairs(ps: Pass, c: Context, a: Answers)
    requires PlanOf(ps, c, a).Some?
    ensures Repairs(ps, Judged(At(ps, a), c, a).0.watched[ps.idx], c, a, Look(ps, c, a))
  {
    PlanIsIndexed(ps, c, a);
    hide Judged, PlanOf, PlanRepair, Repaired, Look, VerdictAt, Lists, SwapRemove, HandsOn, Mends, Chain;
    hide RepairDue, HasId;
    var j, plan := Judged(At(ps, a), c, a).0, PlanOf(ps, c, a).value;
    var v := j.watched[ps.idx];
    PlanGuards(ps, c, a);
    ReadingsAreVerdicts(ps.watched[ps.idx], c);
    RepairLook(ps, c, a);
    JudgedSpares(ps, c, a);
    if plan != Wait {
      if plan.HandToSibling? { HandFinds(ps, c, a); }
      RepairedIs(ps, Take(j), v, plan, c, a);
    }
  }

  /** Until it turns to its plan a look that repairs has changed only the member looked at. */
  lemma JudgedSpares(ps: Pass, c: Context, a: Answers)
    requires PlanOf(ps, c, a).Some?
    ensures var j, w := Judged(At(ps, a), c, a).0, ps.watched[ps.idx];
            && j.released == ps.released && j.born == ps.born && j.repairs == ps.repairs && j.closed == ps.closed
            && j.idx == ps.idx && j.watched[ps.idx].forced == w.forced && j.spawned == ps.spawned
            && j.watched == ps.watched[ps.idx := j.watched[ps.idx]]
            && Take(j).watched == SwapRemove(ps.watched, ps.idx)
  {
    JudgedMember(At(ps, a), c, a);
    SwapRemovePut(ps.watched, ps.idx, Judged(At(ps, a), c, a).0.watched[ps.idx]);
    hide Judged, Linger, VerdictAt, SwapRemove;
  }

  lemma PlanIsIndexed(ps: Pass, c: Context, a: Answers)
    ensures PlanOf(ps, c, a).Some? ==> ps.idx < |ps.watched|
  {
  }

  lemma RepairedIs(ps: Pass, t: Pass, v: Watched, plan: Plan, c: Context, a: Answers)
    requires plan != Wait && ps.idx < |ps.watched|
    requires var w := ps.watched[ps.idx];
             v.id == w.id && v.endpoint == w.endpoint && v.supersedes == w.supersedes && v.repairs == w.repairs
    requires t.watched == SwapRemove(ps.watched, ps.idx) && t.spawned == ps.spawned && t.idx == ps.idx
    requires t.closed == ps.closed && t.born == ps.born
    requires plan.HandToSibling? ==> HasId(t.watched, plan.other) || HasId(t.spawned, plan.other)
    ensures var q := Repaired(t, v, plan, c, a);
            && q.idx == ps.idx && q.released == t.released
            && q.repairs == t.repairs + (if v.forced then 0 else 1)
            && if plan.HandToSibling? then HandsOn(ps, plan.other, q) else Mends(ps, plan, c, a, q)
  {
    var w, chain := ps.watched[ps.idx], Chain(v);
    SwapRemoveMultiset(ps.watched, ps.idx);
    hide SwapRemove, Extend;
    if plan.HandToSibling? {
      HandedIs(t, plan.other, chain);
    } else if plan in {CloseThenSpawn, SpawnThenClose} && a.connect.Some? {
      var supersedes := if plan == CloseThenSpawn then [] else chain;
      var e := Replacement(v, a.connect.value, supersedes, c.now, a);
      assert Replaces(e, w, a.connect.value, supersedes, c, a);
      assert Repaired(t, v, plan, c, a).spawned == ps.spawned + [e];
    }
  }

  lemma HandedIs(ps: Pass, x: SocketId, chain: seq<SocketId>)
    requires HasId(ps.watched, x) || HasId(ps.spawned, x)
    ensures TakenOver(ps.watched + ps.spawned, Hand(ps, x, chain).watched + Hand(ps, x, chain).spawned, x, chain)
    ensures var q := Hand(ps, x, chain); |q.spawned| == |ps.spawned| && q.closed == ps.closed && q.born == ps.born
  {
    var was, q := ps.watched + ps.spawned, Hand(ps, x, chain);
    if HasId(ps.watched, x) {
      FirstIndex(ps.watched, x);
      var i := IndexOf(ps.watched, x);
      assert q.watched + q.spawned == was[i := was[i].(supersedes := was[i].supersedes + chain)];
    } else {
      FirstIndex(ps.spawned, x);
      var i := |ps.watched| + IndexOf(ps.spawned, x);
      assert q.watched + q.spawned == was[i := was[i].(supersedes := was[i].supersedes + chain)];
    }
  }

  lemma {:induction false} FirstIndex(ws: seq<Watched>, x: SocketId)
    requires HasId(ws, x)
    ensures forall j | 0 <= j < IndexOf(ws, x) :: ws[j].id != x
  {
    if ws[0].id != x {
      var e :| e in ws && e.id == x;
      assert e in ws[1..];
      FirstIndex(ws[1..], x);
      assert forall j | 1 <= j < |ws| :: ws[j] == ws[1..][j - 1];
    }
  }

  // ── Starts, passes and re-adds ──

  /** A member just connected: due at once, with its own connect timeout, or three seconds if that
      cannot be read, and a second. */
  ghost predicate IsNew(e: Watched, id: SocketId, endpoint: Endpoint, now: nat, conntimeo: int) {
    e == Watched(id, endpoint, Init, now, now + (if conntimeo <= 0 then 3000 else conntimeo) + 1000,
                 None, 0, [], None, false)
  }

  /** Every member the connect left is watched, in order, and journalled. */
  lemma StartWatchesAll(members: seq<Joined>, now: nat)
    ensures var ps := Started(members, now);
            && |ps.watched| == |ps.born| == |ps.log| == |members| && ps.spawned == []
            && ps.closed == [] && ps.released == [] && ps.idx == 0
            && forall i | 0 <= i < |members| ::
                 && IsNew(ps.watched[i], members[i].id, members[i].endpoint, now, members[i].conntimeo)
                 && ps.born[i] == members[i].id && ps.log[i] == Begins(members[i].id, now, members[i].conntimeo, [])
  {
  }

  /** A re-add adds a member exactly when the group is up, none listed carries the token on a socket
      read alive, and libsrt leaves one; otherwise it changes nothing. */
  lemma AddsExactly(ps: Pass, endpoint: Endpoint, a: AddAnswers)
    ensures var q := Added(ps, endpoint, a);
            if a.groupUp && (forall r | r in a.rows :: !Carries(r, endpoint.token, [], a.live)) && a.connect.Some?
            then
              && (exists e :: IsNew(e, a.connect.value, endpoint, a.now, a.conntimeo)
                              && q.watched == ps.watched + [e])
              && q.born == ps.born + [a.connect.value]
              && q.log == ps.log + [Begins(a.connect.value, a.now, a.conntimeo, [])]
              && q.spawned == ps.spawned && q.closed == ps.closed && q.released == ps.released && q.idx == ps.idx
            else q == ps
  {
    assert forall r :: FlightRow(r, endpoint.token, [], a.live) == Carries(r, endpoint.token, [], a.live);
    if a.connect.Some? {
      var id := a.connect.value;
      assert IsNew(Spawned(id, endpoint, a.now, a.conntimeo), id, endpoint, a.now, a.conntimeo);
    }
  }

  /** A pass at which no member is due changes nothing. Any other begins with every member's live
      state read afresh, and ends with what its looks leave watched and what they connected. */
  lemma PassIsItsLooks(ps: Pass, c: Context, live: Sockets, answers: seq<Answers>)
    ensures (forall w | w in ps.watched :: c.now < w.notBefore) ==> CheckPass(ps, c, live, answers) == ps
    ensures (exists w | w in ps.watched :: w.notBefore <= c.now) ==>
              exists from: Pass ::
                && |from.watched| == |ps.watched| && from.idx == 0 && from.spawned == [] && from.looked == []
                && (forall i | 0 <= i < |ps.watched| ::
                      from.watched[i] == ps.watched[i].(live := if ps.watched[i].id in live then live[ps.watched[i].id]
                                                                else NonExist))
                && from.closed == ps.closed && from.released == ps.released && from.born == ps.born
                && from.log == ps.log && from.repairs == ps.repairs && from.flight == ps.flight
                && var to, q := Looks(from, c, answers), CheckPass(ps, c, live, answers);
                   && q.watched == to.watched + to.spawned && q.spawned == [] && q.idx == 0
                   && q.closed == to.closed && q.released == to.released && q.born == to.born && q.log == to.log
                   && q.repairs == to.repairs && q.flight == to.flight
  {
    hide Looks;
    var from := Begin(ps, live);
    assert from.watched == ReadLive(ps.watched, live);
  }
}
