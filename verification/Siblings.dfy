/** What an unwatched sibling is: a member a repair leaves its endpoint to without watching it. */
module Siblings {
  import opened SrtTypes
  import opened Watch
  import opened Journal
  import opened RepairPlan
  import opened CheckGroup
  import opened GroupLaws
  import opened PassSafety
  import opened PassTheorems
  import opened Clocks
  import opened GroupRuns
  import opened GroupTheorems
  import opened RunClocks

  ghost predicate ReadUp(log: seq<Note>, x: SocketId) {
    exists n | n in log :: n.Reads? && n.id == x && n.verdict == Confirmed
  }

  /** A member released and in flight has been read up. */
  ghost predicate Settled(ps: Pass) {
    forall x | x in ps.released && x in ps.flight :: ReadUp(ps.log, x)
  }

  lemma ReadUpStays(log: seq<Note>, all: seq<Note>, x: SocketId)
    requires log <= all && ReadUp(log, x)
    ensures ReadUp(all, x)
  {
    var n :| n in log && n.Reads? && n.id == x && n.verdict == Confirmed;
    var i :| 0 <= i < |log| && log[i] == n;
    assert all[i] == n;
  }

  /** No look brings a member back in flight but the one it begins. */
  lemma LookFlight(ps: Pass, c: Context, a: Answers)
    ensures forall x | x in Look(ps, c, a).flight ::
              (x in ps.flight && x !in a.died) || a.connect == Some(x)
  {
    if ps.idx < |ps.watched| && ps.watched[ps.idx].notBefore <= c.now {
      var w, at := ps.watched[ps.idx], At(ps, a);
      var j := Judged(at, c, a);
      JudgedMember(at, c, a);
      StepFlight(j.0, j.1, VerdictAt(w, c), c, a);
      hide Judged, Stepped, Linger, VerdictAt;
    }
  }

  lemma StepFlight(ps: Pass, step: Step, verdict: Verdict, c: Context, a: Answers)
    requires ps.idx < |ps.watched|
    ensures forall x | x in Stepped(ps, step, verdict, c, a).flight :: x in ps.flight || a.connect == Some(x)
  {
    if step == Repair && PlanAt(ps, verdict, c, a) != Wait {
      RepairedFlight(Take(ps), ps.watched[ps.idx], PlanAt(ps, verdict, c, a), c, a);
    }
    hide PlanRepair, Repaired;
  }

  /** A look that is due writes its reading to the journal. */
  lemma LookReads(ps: Pass, c: Context, a: Answers)
    ensures ps.log <= Look(ps, c, a).log
    ensures Due(ps, c) ==> Judging(ps.watched[ps.idx], c, a) in Look(ps, c, a).log
  {
    if Due(ps, c) {
      var w, at := ps.watched[ps.idx], At(ps, a);
      var j := Judged(at, c, a);
      JudgedMember(at, c, a);
      var more := StepLog(j.0, j.1, VerdictAt(w, c), c, a);
      hide Judged, Stepped, Linger, VerdictAt;
      var q := Look(ps, c, a);
      assert q.log == j.0.log + more && j.0.log[|ps.log|] == Judging(w, c, a);
      assert q.log[|ps.log|] == Judging(w, c, a);
    }
  }

  /** A member read gone is not in flight. */
  lemma GoneIsOut(ps: Pass, c: Context, a: Answers, tok: SocketId -> int)
    requires PassInv(ps, c.now, tok) && Faithful(ps, c, a, tok) && UniqueIds(c.rows) && ps.idx < |ps.watched|
    requires VerdictAt(ps.watched[ps.idx], c) == Gone
    ensures ps.watched[ps.idx].id !in ps.flight - a.died
  {
    var w := ps.watched[ps.idx];
    forall e | e in ps.spawned ensures e.id != w.id { TrackedOnce(ps, w, e, w.id); }
    assert forall r | r in c.rows && r.id == w.id :: FindRow(c.rows, w.id) == Some(r);
    hide PassInv;
  }

  lemma LookSettles(ps: Pass, c: Context, a: Answers, tok: SocketId -> int)
    requires PassInv(ps, c.now, tok) && Faithful(ps, c, a, tok) && UniqueIds(c.rows) && Settled(ps)
    ensures Settled(Look(ps, c, a))
  {
    var q := Look(ps, c, a);
    LookFlight(ps, c, a);
    LookReads(ps, c, a);
    if ps.idx < |ps.watched| {
      var w := ps.watched[ps.idx];
      LookReleases(ps, c, a);
      assert w in Members(ps) && w.id in Chain(w);
      TrackedIsOpen(ps, w, w.id);
      if VerdictAt(w, c) == Gone { GoneIsOut(ps, c, a, tok); }
      ReleasedOnlyDue(ps, c, a);
    } else {
      NoRelease(ps, c, a);
    }
    hide Look, VerdictAt, ReadUp;
    forall x | x in q.released && x in q.flight ensures ReadUp(q.log, x) {
      if x in ps.released {
        ReleasedWasBorn(ps, x);
        ReadUpStays(ps.log, q.log, x);
      } else {
        ReadsUp(q.log, Judging(ps.watched[ps.idx], c, a));
      }
    }
  }

  lemma ReadsUp(log: seq<Note>, n: Note)
    requires n in log && n.Reads? && n.verdict == Confirmed
    ensures ReadUp(log, n.id)
  {
  }

  lemma NoRelease(ps: Pass, c: Context, a: Answers)
    requires ps.idx >= |ps.watched|
    ensures Look(ps, c, a).released == ps.released
  {
  }

  lemma ReleasedOnlyDue(ps: Pass, c: Context, a: Answers)
    requires ps.idx < |ps.watched|
    ensures !Due(ps, c) ==> Look(ps, c, a).released == ps.released
  {
  }

  lemma ReleasedWasBorn(ps: Pass, x: SocketId)
    requires Accounted(ps) && x in ps.released
    ensures x in ps.born
  {
    assert Net(ps, x) == 0;
  }

  lemma {:induction false} LooksSettle(ps: Pass, c: Context, answers: seq<Answers>, tok: SocketId -> int)
    requires PassInv(ps, c.now, tok) && FaithfulPass(ps, c, answers, tok) && UniqueIds(c.rows) && Settled(ps)
    ensures Settled(Looks(ps, c, answers))
  {
    hide PassInv, Look, Faithful, FaithfulPass, Settled, UniqueIds;
    if answers != [] {
      var n := |answers| - 1;
      FaithfulPrefix(ps, c, answers, tok, n);
      LooksKeep(ps, c, answers[..n], tok);
      LooksSettle(ps, c, answers[..n], tok);
      LookSettles(Looks(ps, c, answers[..n]), c, answers[n], tok);
    }
  }

  ghost predicate UniqueRows(events: seq<Event>) {
    forall e | e in events :: e.Check? ==> UniqueIds(e.c.rows)
  }

  lemma EventSettles(g: Group, e: Event, tok: SocketId -> int)
    requires GroupInv(g, tok) && Plausible(g, e, tok) && Settled(g.pass) && (e.Check? ==> UniqueIds(e.c.rows))
    ensures Settled(Happen(g, e).pass)
  {
    match e
    case Fail(_) =>
    case Add(endpoint, a) =>
      var q := Added(g.pass, endpoint, a);
      forall x | x in q.released && x in q.flight ensures ReadUp(q.log, x) {
        ReleasedWasBorn(g.pass, x);
        ReadUpStays(g.pass.log, q.log, x);
      }
    case Check(c, live, answers) =>
      BeginKeeps(g.pass, live, c.now, tok);
      BeginSettles(g.pass, live);
      hide PassInv, Begin, Looks, SpawnBudget, RepairBudget, FaithfulPass, ReadUp;
      LooksSettle(Begin(g.pass, live), c, answers, tok);
  }

  lemma BeginSettles(ps: Pass, live: Sockets)
    requires Settled(ps)
    ensures Settled(Begin(ps, live))
  {
  }

  lemma {:induction false} RunSettles(members: seq<Joined>, now: nat, events: seq<Event>, tok: SocketId -> int)
    requires GoodRun(members, now, events, tok) && UniqueRows(events)
    ensures Settled(Run(Start(members, now), events).pass)
  {
    hide GroupInv, Happen, Plausible, PlausibleRun;
    if events != [] {
      var n := |events| - 1;
      PlausiblePrefix(Start(members, now), events, tok, n);
      RunSettles(members, now, events[..n], tok);
      StartHolds(members, now, tok);
      RunHolds(Start(members, now), events[..n], tok);
      EventSettles(Run(Start(members, now), events[..n]), events[n], tok);
    }
  }

  /** Over every run whose listings have one row per member: a member that is in flight, and that a
      repair joins without its being watched, is superseded by another watched member, which will
      close it, or was released after a reading found it up. */
  lemma UnwatchedSibling(members: seq<Joined>, now: nat, events: seq<Event>, tok: SocketId -> int, n: nat, k: nat,
                         x: SocketId)
    requires GoodRun(members, now, events, tok) && UniqueRows(events) && IsLook(members, now, events, n, k)
    ensures var at, c, a := LookOf(members, now, events, n, k), events[n].c, events[n].answers[k];
            PlanOf(at, c, a) == Some(JoinSibling(x)) && !HasId(Members(at), x) && x in at.flight ==>
              var w := at.watched[at.idx];
              || (exists e | e in Members(at) :: e.id != w.id && x in e.supersedes)
              || (x in at.released && ReadUp(at.log, x))
  {
    var e, at := events[n], LookOf(members, now, events, n, k);
    LookHolds(members, now, events, tok, n, k);
    LookIsSettled(members, now, events, tok, n, k);
    hide LookOf, GoodRun, UniqueRows, Faithful, ReadUp, PlanOf, Members, PassInv, Settled;
    if PlanOf(at, e.c, e.answers[k]) == Some(JoinSibling(x)) && !HasId(Members(at), x) && x in at.flight {
      SiblingTracked(at, e.c, e.answers[k], tok, x);
    }
  }

  lemma LookIsSettled(members: seq<Joined>, now: nat, events: seq<Event>, tok: SocketId -> int, n: nat, k: nat)
    requires GoodRun(members, now, events, tok) && UniqueRows(events) && IsLook(members, now, events, n, k)
    ensures Settled(LookOf(members, now, events, n, k))
  {
    var e := events[n];
    var g := Run(Start(members, now), events[..n]);
    PlausiblePrefix(Start(members, now), events, tok, n);
    StartHolds(members, now, tok);
    RunHolds(Start(members, now), events[..n], tok);
    assert UniqueRows(events[..n]) && e in events;
    RunSettles(members, now, events[..n], tok);
    BeginKeeps(g.pass, e.live, e.c.now, tok);
    BeginSettles(g.pass, e.live);
    hide Run, PassInv, Begin, Looks, SpawnBudget, RepairBudget, Faithful, FaithfulPass, Settled, Due;
    FaithfulPrefix(Begin(g.pass, e.live), e.c, e.answers, tok, k);
    LooksSettle(Begin(g.pass, e.live), e.c, e.answers[..k], tok);
  }

  lemma SiblingTracked(at: Pass, c: Context, a: Answers, tok: SocketId -> int, x: SocketId)
    requires PassInv(at, c.now, tok) && Settled(at) && x in at.flight && !HasId(Members(at), x)
    requires PlanOf(at, c, a) == Some(JoinSibling(x))
    ensures var w := at.watched[at.idx];
            || (exists e | e in Members(at) :: e.id != w.id && x in e.supersedes)
            || (x in at.released && ReadUp(at.log, x))
  {
    var w := at.watched[at.idx];
    JoinedOutside(at, c, a, x);
    hide PlanOf, ReadUp;
    if x !in at.released {
      assert Net(at, x) == 0;
      if Sum(at.watched, Holds(x)) > 0 { SumFinds(at.watched, x); } else { SumFinds(at.spawned, x); }
      var e :| e in Members(at) && x in Chain(e);
      assert e.id != x && x in e.supersedes;
      if e.id == w.id { SameIdSameMember(at, e); }
    }
  }

  lemma SameIdSameMember(ps: Pass, e: Watched)
    requires Accounted(ps) && ps.idx < |ps.watched| && e in Members(ps) && e.id == ps.watched[ps.idx].id
    ensures e == ps.watched[ps.idx]
  {
    if e in ps.watched {
      var k :| 0 <= k < |ps.watched| && ps.watched[k] == e;
      if k != ps.idx { OtherIds(ps, k); }
    } else {
      TrackedOnce(ps, ps.watched[ps.idx], e, e.id);
    }
  }

  /** A sibling joined without being watched is not in the chain. */
  lemma JoinedOutside(at: Pass, c: Context, a: Answers, x: SocketId)
    requires PlanOf(at, c, a) == Some(JoinSibling(x)) && !HasId(Members(at), x)
    ensures x !in Chain(at.watched[at.idx])
  {
    RepairLook(at, c, a);
    var j := Judged(At(at, a), c, a).0;
    var v := j.watched[j.idx];
    SameIds(at, j);
    CloseFirstHasWitness(v, VerdictAt(at.watched[at.idx], c) == BrokenLive, j.watched, j.spawned, c.rows, c.now, a);
    hide Judged, VerdictAt, PlanRepair, PeerHas;
    assert Chain(v) == Chain(at.watched[at.idx]);
  }
}
