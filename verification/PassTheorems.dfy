/** What holds of every look of a pass, and of every whole pass. */
module PassTheorems {
  import opened SrtTypes
  import opened Watch
  import opened Journal
  import opened RepairPlan
  import opened CheckGroup
  import opened GroupLaws
  import opened PassSafety

  /** Libsrt answers every look of the pass faithfully. */
  ghost predicate FaithfulPass(ps: Pass, c: Context, answers: seq<Answers>, tok: SocketId -> int) {
    forall k | 0 <= k < |answers| :: Faithful(Looks(ps, c, answers[..k]), c, answers[k], tok)
  }

  lemma FaithfulPrefix(ps: Pass, c: Context, answers: seq<Answers>, tok: SocketId -> int, k: nat)
    requires FaithfulPass(ps, c, answers, tok) && k <= |answers|
    ensures FaithfulPass(ps, c, answers[..k], tok)
    ensures k < |answers| ==> Faithful(Looks(ps, c, answers[..k]), c, answers[k], tok)
  {
    hide Faithful, Looks;
    assert forall i | 0 <= i < k :: answers[..k][..i] == answers[..i] && answers[..k][i] == answers[i];
  }

  lemma {:induction false} LooksKeep(ps: Pass, c: Context, answers: seq<Answers>, tok: SocketId -> int)
    requires PassInv(ps, c.now, tok) && FaithfulPass(ps, c, answers, tok)
    ensures PassInv(Looks(ps, c, answers), c.now, tok)
  {
    hide PassInv, Look, Faithful, FaithfulPass;
    if answers != [] {
      var n := |answers| - 1;
      FaithfulPrefix(ps, c, answers, tok, n);
      LooksKeep(ps, c, answers[..n], tok);
      LookKeeps(Looks(ps, c, answers[..n]), c, answers[n], tok);
    }
  }

  /** The state before look `k` of a pass. */
  ghost function Before(ps: Pass, c: Context, answers: seq<Answers>, k: nat): Pass
    requires k <= |answers|
  {
    Looks(ps, c, answers[..k])
  }

  lemma BeforeInv(ps: Pass, c: Context, answers: seq<Answers>, tok: SocketId -> int, k: nat)
    requires PassInv(ps, c.now, tok) && FaithfulPass(ps, c, answers, tok) && k <= |answers|
    ensures PassInv(Before(ps, c, answers, k), c.now, tok)
    ensures k < |answers| ==> Faithful(Before(ps, c, answers, k), c, answers[k], tok)
  {
    hide PassInv, Look, Faithful, FaithfulPass;
    FaithfulPrefix(ps, c, answers, tok, k);
    LooksKeep(ps, c, answers[..k], tok);
  }

  /** The repair a look carries out or puts off, if it comes to one. */
  ghost function PlanOf(ps: Pass, c: Context, a: Answers): Option<Plan> {
    if ps.idx < |ps.watched| && ps.watched[ps.idx].notBefore <= c.now && Judged(At(ps, a), c, a).1 == Repair
    then Some(PlanAt(Judged(At(ps, a), c, a).0, VerdictAt(ps.watched[ps.idx], c), c, a))
    else None
  }

  /** The step of a look, by the clocks of its member. */
  lemma RepairStep(at: Pass, c: Context, a: Answers)
    requires at.idx < |at.watched|
    ensures var w := at.watched[at.idx];
            Judged(At(at, a), c, a).1 == Repair <==>
              || (Strands(VerdictAt(w, c)) && c.now - w.strandedSince.GetOr(c.now) >= STRANDED_MEMBER_GRACE)
              || (VerdictAt(w, c) == Handshaking && c.now >= w.resolveBy && !IsTerminal(w.live))
  {
    hide VerdictAt;
  }

  /** A look that repairs closes nothing but its chain, and judges the member it finds. */
  lemma RepairLook(ps: Pass, c: Context, a: Answers)
    requires PlanOf(ps, c, a).Some?
    ensures var j, w := Judged(At(ps, a), c, a).0, ps.watched[ps.idx];
            var v, plan := j.watched[j.idx], PlanOf(ps, c, a).value;
            && v.id == w.id && v.endpoint == w.endpoint && v.supersedes == w.supersedes && v.repairs == w.repairs
            && j.watched == ps.watched[ps.idx := v] && j.spawned == ps.spawned && j.closed == ps.closed
            && (plan != Wait ==> Look(ps, c, a) == Repaired(Take(j), v, plan, c, a))
            && (plan == Wait ==> Look(ps, c, a) == Next(j))
  {
    JudgedMember(At(ps, a), c, a);
    hide Judged, Linger, VerdictAt, PlanRepair, Repaired;
  }

  /** The member looked at and its chain share one token; no member outside the chain that is
      listed unbroken, or watched and listed Broken, was read connected; no handshake of a watched
      member runs outside it; and nothing has been spawned yet in the pass. */
  ghost predicate IsAlone(at: Pass, c: Context, a: Answers, tok: SocketId -> int) {
    && at.idx < |at.watched|
    && var w := at.watched[at.idx];
       && (forall s | s in Chain(w) :: tok(s) == w.endpoint.token)
       && (forall r | r in c.rows && r.id !in Chain(w) && r.member != MemberStatus.Broken ::
             SockState(a.peer, r.id) != Connected)
       && (forall e | e in Members(at) && e.id !in Chain(w) && ListedBroken(c.rows, e.id) ::
             SockState(a.broken, e.id) != Connected)
       && (forall e | e in Members(at) && e.id !in Chain(w) :: !InHandshake(e, c.now))
       && at.spawned == []
  }

  /** A look that lets another member replace its chain without closing it. */
  ghost predicate TakesFirst(ps: Pass, c: Context, a: Answers) {
    var plan := PlanOf(ps, c, a);
    plan.Some? && (plan.value == SpawnThenClose || plan.value.HandToSibling?)
  }

  lemma OverlapIsAlone(at: Pass, c: Context, a: Answers, tok: SocketId -> int)
    requires PassInv(at, c.now, tok) && TakesFirst(at, c, a)
    ensures IsAlone(at, c, a, tok)
  {
    RepairLook(at, c, a);
    JudgedKeeps(at, c, a, tok);
    var j := Judged(At(at, a), c, a).0;
    var w, v := at.watched[at.idx], j.watched[j.idx];
    var broken := VerdictAt(w, c) == BrokenLive;
    if j.spawned != [] { SpawnedStopsOverlap(j, VerdictAt(w, c), c, a); }
    if PlanOf(at, c, a) == Some(SpawnThenClose) {
      OverlapsOnlyAlone(v, broken, j.watched, j.spawned, c.rows, c.now, a);
    } else {
      HandsOnlyAlone(v, broken, j.watched, j.spawned, c.rows, c.now, a);
    }
    hide Judged, VerdictAt, PlanRepair, PlanOf;
    assert forall s | s in Chain(w) :: tok(s) == w.endpoint.token by { assert w in Members(at); }
    AloneBefore(at, j, v, c, a);
  }

  /** What held of the rest of the group once the member was judged held before. */
  lemma AloneBefore(at: Pass, j: Pass, v: Watched, c: Context, a: Answers)
    requires at.idx < |at.watched| == |j.watched| && j.watched == at.watched[at.idx := v] && j.spawned == at.spawned
    requires var w := at.watched[at.idx]; v.id == w.id && v.supersedes == w.supersedes
    requires forall x :: !PeerHas(x, Chain(v), j.watched + j.spawned, c.rows, a)
    requires forall e | e in j.watched + j.spawned :: e.id in Chain(v) || !InHandshake(e, c.now)
    ensures var w := at.watched[at.idx];
            && (forall r | r in c.rows && r.id !in Chain(w) && r.member != MemberStatus.Broken ::
                  SockState(a.peer, r.id) != Connected)
            && (forall e | e in Members(at) && e.id !in Chain(w) && ListedBroken(c.rows, e.id) ::
                  SockState(a.broken, e.id) != Connected)
            && (forall e | e in Members(at) && e.id !in Chain(w) :: !InHandshake(e, c.now))
  {
    var w := at.watched[at.idx];
    assert Chain(v) == Chain(w);
    forall r | r in c.rows && r.id !in Chain(w) && r.member != MemberStatus.Broken
      ensures SockState(a.peer, r.id) != Connected
    {
      assert !PeerHas(r.id, Chain(v), j.watched + j.spawned, c.rows, a);
    }
    forall e | e in Members(at) && e.id !in Chain(w)
      ensures ListedBroken(c.rows, e.id) ==> SockState(a.broken, e.id) != Connected
      ensures !InHandshake(e, c.now)
    {
      assert e in j.watched + j.spawned by {
        if e in at.watched {
          var i :| 0 <= i < |at.watched| && at.watched[i] == e;
          assert w.id in Chain(w);
          assert j.watched[i] == e;
        }
      }
      assert HasId(j.watched + j.spawned, e.id);
      assert !PeerHas(e.id, Chain(v), j.watched + j.spawned, c.rows, a);
    }
  }

  /** A chain is handed to a sibling that is there to take it. */
  lemma HandFinds(ps: Pass, c: Context, a: Answers)
    requires PlanOf(ps, c, a).Some? && PlanOf(ps, c, a).value.HandToSibling?
    ensures var j, other := Judged(At(ps, a), c, a).0, PlanOf(ps, c, a).value.other;
            HasId(Take(j).watched, other) || HasId(j.spawned, other)
  {
    RepairLook(ps, c, a);
    var j := Judged(At(ps, a), c, a).0;
    var w, plan := j.watched[j.idx], PlanOf(ps, c, a).value;
    HandedSiblingIsWatched(w, VerdictAt(ps.watched[ps.idx], c) == BrokenLive, j.watched, j.spawned, c.rows, c.now, a);
    SwapRemoveElems(j.watched, j.idx);
    var e :| e in j.watched + j.spawned && e.id == plan.other;
    assert e == w || e in Take(j).watched || e in j.spawned;
    assert w.id in Chain(w);
    hide Judged, VerdictAt, PlanRepair;
  }

  /** A look that closes its chain first because another member is up: to reconnect, or to join a
      sibling the bridge still watches. */
  ghost predicate ClosesBecauseUp(at: Pass, c: Context, a: Answers)
    ensures ClosesBecauseUp(at, c, a) ==> at.idx < |at.watched|
  {
    var plan := PlanOf(at, c, a);
    plan == Some(CloseThenSpawn) || (plan.Some? && plan.value.JoinSibling? && HasId(Members(at), plan.value.other))
  }

  lemma SameIds(ps: Pass, j: Pass)
    requires ps.idx < |ps.watched| == |j.watched| && j.spawned == ps.spawned
    requires j.watched == ps.watched[ps.idx := j.watched[ps.idx]] && j.watched[ps.idx].id == ps.watched[ps.idx].id
    ensures forall x :: HasId(j.watched + j.spawned, x) <==> HasId(ps.watched + ps.spawned, x)
  {
    forall x ensures HasId(j.watched + j.spawned, x) <==> HasId(ps.watched + ps.spawned, x) {
      forall i | 0 <= i < |ps.watched|
        ensures j.watched[i].id == ps.watched[i].id
        ensures j.watched[i] in j.watched + j.spawned && ps.watched[i] in ps.watched + ps.spawned
      {
      }
    }
  }

  lemma ClosingKeepsThePeer(at: Pass, c: Context, a: Answers, tok: SocketId -> int)
    requires PassInv(at, c.now, tok) && Faithful(at, c, a, tok) && ClosesBecauseUp(at, c, a)
    ensures exists x ::
              && PeerHas(x, Chain(at.watched[at.idx]), Members(at), c.rows, a)
              && x !in Look(at, c, a).closed
  {
    hide PlanRepair, Look, VerdictAt, Net, TokensOk, OneFlight, FreshlySpawned;
    RepairLook(at, c, a);
    var j := Judged(At(at, a), c, a).0;
    var w, v := at.watched[at.idx], j.watched[j.idx];
    var verdict, plan := VerdictAt(w, c), PlanOf(at, c, a).value;
    SameIds(at, j);
    CloseFirstHasWitness(v, verdict == BrokenLive, j.watched, j.spawned, c.rows, c.now, a);
    hide Judged, PassInv;
    var x :| PeerHas(x, Chain(v), j.watched + j.spawned, c.rows, a);
    assert Look(at, c, a).closed == at.closed + Chain(w) by { assert Chain(v) == Chain(w); }
    assert PeerHas(x, Chain(w), Members(at), c.rows, a);
  }

  /** Closing first because another member is up never empties the peer: some member was read
      connected for this very plan, and neither this look nor any repair before it, in this pass
      or an earlier one, has closed it. */
  lemma CloseFirstKeepsThePeer(ps: Pass, c: Context, answers: seq<Answers>, tok: SocketId -> int, k: nat)
    requires PassInv(ps, c.now, tok) && FaithfulPass(ps, c, answers, tok) && k < |answers|
    ensures var at, a := Before(ps, c, answers, k), answers[k];
            ClosesBecauseUp(at, c, a) ==>
              exists x ::
                && PeerHas(x, Chain(at.watched[at.idx]), Members(at), c.rows, a)
                && x !in Look(at, c, a).closed
  {
    var at, a := Before(ps, c, answers, k), answers[k];
    BeforeInv(ps, c, answers, tok, k);
    if ClosesBecauseUp(at, c, a) { ClosingKeepsThePeer(at, c, a, tok); }
    hide PassInv, Looks, Look, PeerHas;
  }

  // ── Each member is come to exactly once ──

  ghost function Tags(ws: seq<Watched>): seq<(SocketId, nat)> {
    seq(|ws|, i requires 0 <= i < |ws| => (ws[i].id, ws[i].notBefore))
  }

  /** Members looked at, and those still ahead of the loop. */
  ghost function Roll(ps: Pass): multiset<(SocketId, nat)>
    requires ps.idx <= |ps.watched|
  {
    multiset(ps.looked) + multiset(Tags(ps.watched)[ps.idx..])
  }

  lemma SwapRemoveTail<T>(s: seq<T>, i: nat)
    requires i < |s|
    ensures multiset(SwapRemove(s, i)[i..]) + multiset{s[i]} == multiset(s[i..])
  {
    var n := |s| - 1;
    assert s[i..] == [s[i]] + s[i+1..];
    if i < n {
      assert SwapRemove(s, i)[i..] == [s[n]] + s[i+1..n];
      assert s[i+1..] == s[i+1..n] + [s[n]];
    }
  }

  lemma TakeTags(ws: seq<Watched>, i: nat)
    requires i < |ws|
    ensures Tags(SwapRemove(ws, i)) == SwapRemove(Tags(ws), i)
  {
  }

  /** The tags still ahead after a step are those ahead before, less the member looked at. */
  lemma SteppedTags(ps: Pass, step: Step, verdict: Verdict, c: Context, a: Answers)
    requires ps.idx < |ps.watched|
    ensures var q := Stepped(ps, step, verdict, c, a);
            multiset(Tags(q.watched)[q.idx..]) + multiset{Tags(ps.watched)[ps.idx]}
            == multiset(Tags(ps.watched)[ps.idx..])
            && q.looked == ps.looked
  {
    var q := Stepped(ps, step, verdict, c, a);
    var tags := Tags(ps.watched);
    if step == Repair && PlanAt(ps, verdict, c, a) != Wait {
      RepairedTags(Take(ps), ps.watched[ps.idx], PlanAt(ps, verdict, c, a), c, a);
      TakenTags(ps);
      hide PlanRepair, Repaired, Tags;
    } else {
      hide PlanRepair, Repaired;
      if step in {Drop, Abandon} {
        TakenTags(ps);
        hide Tags;
      } else {
        assert Tags(q.watched)[q.idx..] == tags[ps.idx+1..];
        assert tags[ps.idx..] == [tags[ps.idx]] + tags[ps.idx+1..];
      }
    }
  }

  lemma TakenTags(ps: Pass)
    requires ps.idx < |ps.watched|
    ensures multiset(Tags(Take(ps).watched)[ps.idx..]) + multiset{Tags(ps.watched)[ps.idx]}
            == multiset(Tags(ps.watched)[ps.idx..])
  {
    SwapRemoveTail(Tags(ps.watched), ps.idx);
    TakeTags(ps.watched, ps.idx);
  }

  lemma RepairedTags(ps: Pass, w: Watched, plan: Plan, c: Context, a: Answers)
    requires plan != Wait
    ensures Tags(Repaired(ps, w, plan, c, a).watched) == Tags(ps.watched)
    ensures Repaired(ps, w, plan, c, a).looked == ps.looked
  {
  }

  lemma LookRolls(ps: Pass, c: Context, a: Answers)
    requires ps.idx < |ps.watched|
    ensures Roll(Look(ps, c, a)) == Roll(ps)
  {
    var w, at := ps.watched[ps.idx], At(ps, a);
    var tags := Tags(ps.watched);
    assert tags[ps.idx..] == [tags[ps.idx]] + tags[ps.idx+1..];
    if w.notBefore <= c.now {
      var j := Judged(at, c, a);
      assert Tags(j.0.watched) == tags by { JudgedMember(at, c, a); JudgedDue(at, c, a); hide Judged, Linger; }
      SteppedTags(j.0, j.1, VerdictAt(w, c), c, a);
      JudgedDue(at, c, a);
      hide Judged, Stepped, VerdictAt;
    }
  }

  lemma JudgedDue(ps: Pass, c: Context, a: Answers)
    requires ps.idx < |ps.watched|
    ensures Judged(ps, c, a).0.watched[ps.idx].notBefore == ps.watched[ps.idx].notBefore
    ensures Judged(ps, c, a).0.looked == ps.looked
  {
    hide ClassifyWatched;
  }

  /** One look per member runs the loop to its end, and the members come to, with the times they
      were due at, are exactly those the pass began with: `swap_remove` skips and repeats none. */
  lemma {:induction false} EachMemberOnce(ps: Pass, c: Context, answers: seq<Answers>)
    requires ps.idx == 0 && ps.looked == [] && |answers| <= |ps.watched|
    ensures var q := Looks(ps, c, answers);
            && q.idx <= |q.watched|
            && Roll(q) == multiset(Tags(ps.watched))
            && (|answers| == |ps.watched| ==> multiset(q.looked) == multiset(Tags(ps.watched)))
  {
    var n := |answers| - 1;
    LooksCount(ps, c, answers);
    if answers == [] {
      assert Tags(ps.watched)[0..] == Tags(ps.watched);
    } else {
      LooksCount(ps, c, answers[..n]);
      EachMemberOnce(ps, c, answers[..n]);
      LookRolls(Looks(ps, c, answers[..n]), c, answers[n]);
      hide Look;
    }
  }

  /** Every id a pass releases was read up, or gone, by one of its looks. */
  lemma {:induction false} ReleasedWasRead(ps: Pass, c: Context, answers: seq<Answers>, x: SocketId)
    requires ps.idx == 0 && |answers| <= |ps.watched|
    requires x in Looks(ps, c, answers).released && x !in ps.released
    ensures exists k | 0 <= k < |answers| ::
              var at := Before(ps, c, answers, k);
              && at.idx < |at.watched| && at.watched[at.idx].id == x
              && VerdictAt(at.watched[at.idx], c) in {Gone, Confirmed}
  {
    var n := |answers| - 1;
    if answers != [] {
      var at := Looks(ps, c, answers[..n]);
      LooksCount(ps, c, answers[..n]);
      LookReleases(at, c, answers[n]);
      hide Look, VerdictAt;
      if x in at.released {
        ReleasedWasRead(ps, c, answers[..n], x);
        assert forall k | 0 <= k < n :: answers[..n][..k] == answers[..k];
        assert forall k | 0 <= k < n :: Before(ps, c, answers[..n], k) == Before(ps, c, answers, k);
      } else {
        assert Before(ps, c, answers, n) == at;
      }
    }
  }

  lemma LookReleases(ps: Pass, c: Context, a: Answers)
    requires ps.idx < |ps.watched|
    ensures var q, w := Look(ps, c, a), ps.watched[ps.idx];
            || q.released == ps.released
            || (q.released == ps.released + [w.id] && VerdictAt(w, c) in {Gone, Confirmed})
  {
    JudgedMember(At(ps, a), c, a);
    var j := Judged(At(ps, a), c, a);
    if j.1 == Repair && PlanAt(j.0, VerdictAt(ps.watched[ps.idx], c), c, a) != Wait {
      RepairedReleases(Take(j.0), j.0.watched[ps.idx], PlanAt(j.0, VerdictAt(ps.watched[ps.idx], c), c, a), c, a);
    }
    hide Judged, Linger, VerdictAt, PlanRepair, Repaired;
  }

  lemma RepairedReleases(ps: Pass, w: Watched, plan: Plan, c: Context, a: Answers)
    requires plan != Wait
    ensures Repaired(ps, w, plan, c, a).released == ps.released
  {
  }

  lemma {:induction false} LooksCount(ps: Pass, c: Context, answers: seq<Answers>)
    requires ps.idx == 0 && |answers| <= |ps.watched|
    ensures var q := Looks(ps, c, answers);
            q.idx <= |q.watched| && |q.watched| - q.idx == |ps.watched| - |answers|
  {
    hide Look;
    if answers != [] { LooksCount(ps, c, answers[..|answers| - 1]); }
  }
}
