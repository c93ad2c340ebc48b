/** Which open members may share an endpoint: those one watched member will close, and, once the
    application has asked for an endpoint again, a member that has failed but is still open. */
module Families {
  import opened SrtTypes
  import opened Watch
  import opened Journal
  import opened RepairPlan
  import opened CheckGroup
  import opened GroupLaws
  import opened PassSafety
  import opened PassTheorems
  import opened Clocks
  import opened GroupRuns
  import opened GroupTheorems
  import opened RunClocks

  /** Spawned, and not closed by the bridge. */
  ghost predicate Open(ps: Pass, x: SocketId) { x in ps.born && x !in ps.closed }

  /** A member the application asked for: connected with the group, or added later. */
  predicate Asks(n: Note) { n.Begins? && n.chain == [] }

  ghost predicate AskedFor(log: seq<Note>, t: int, tok: SocketId -> int) {
    exists n | n in log :: Asks(n) && tok(n.id) == t
  }

  ghost predicate AskedAgain(log: seq<Note>, t: int, tok: SocketId -> int) {
    exists i, j | 0 <= i < j < |log| :: Asks(log[i]) && tok(log[i].id) == t && Asks(log[j]) && tok(log[j].id) == t
  }

  /** Every endpoint is one the application asked for; and unless it has asked for one again, all
      open members of that endpoint are in one chain. */
  ghost predicate OneFamily(ps: Pass, tok: SocketId -> int) {
    && (forall x | x in ps.born :: AskedFor(ps.log, tok(x), tok))
    && (forall x, y | Open(ps, x) && Open(ps, y) && x != y && tok(x) == tok(y) ::
          Together(ps, x, y) || AskedAgain(ps.log, tok(x), tok))
  }

  lemma AskedStays(log: seq<Note>, all: seq<Note>, t: int, tok: SocketId -> int)
    requires log <= all
    ensures AskedFor(log, t, tok) ==> AskedFor(all, t, tok)
    ensures AskedAgain(log, t, tok) ==> AskedAgain(all, t, tok)
  {
    if n :| n in log && Asks(n) && tok(n.id) == t {
      var i :| 0 <= i < |log| && log[i] == n;
      assert all[i] == n;
    }
  }

  /** With no one begun, families stay as they were. */
  lemma FamilyStays(ps: Pass, q: Pass, tok: SocketId -> int)
    requires OneFamily(ps, tok) && StayTogether(ps, q)
    requires ps.log <= q.log && ps.born == q.born && ps.closed <= q.closed
    ensures OneFamily(q, tok)
  {
    hide AskedFor, AskedAgain, Together;
    forall x | x in q.born ensures AskedFor(q.log, tok(x), tok) { AskedStays(ps.log, q.log, tok(x), tok); }
    forall x, y | Open(q, x) && Open(q, y) && x != y && tok(x) == tok(y)
      ensures Together(q, x, y) || AskedAgain(q.log, tok(x), tok)
    {
      AskedStays(ps.log, q.log, tok(x), tok);
    }
  }

  lemma SameTogether(ps: Pass, q: Pass)
    requires Members(ps) == Members(q)
    ensures StayTogether(ps, q)
  {
  }

  /** A chain has one owner. */
  lemma ChainOwner(ps: Pass, e: Watched, x: SocketId)
    requires Accounted(ps) && ps.idx < |ps.watched| && e in Members(ps)
    requires x in Chain(e) && x in Chain(ps.watched[ps.idx])
    ensures e == ps.watched[ps.idx]
  {
    var w := ps.watched[ps.idx];
    assert Net(ps, x) == 0;
    if e in ps.watched {
      var k :| 0 <= k < |ps.watched| && ps.watched[k] == e;
      if k != ps.idx {
        SumOfTwo(ps.watched, if k < ps.idx then k else ps.idx, if k < ps.idx then ps.idx else k, Holds(x));
      }
    } else {
      TrackedOnce(ps, w, e, x);
    }
  }

  /** A repair that begins a member: it joins its family. */
  lemma RepairFamily(ps: Pass, verdict: Verdict, c: Context, a: Answers, tok: SocketId -> int)
    requires Ready(ps, c, a, tok) && PassInv(ps, c.now, tok) && OneFamily(ps, tok)
    requires PlanAt(ps, verdict, c, a) != Wait
    ensures OneFamily(Repaired(Take(ps), ps.watched[ps.idx], PlanAt(ps, verdict, c, a), c, a), tok)
  {
    var w, plan := ps.watched[ps.idx], PlanAt(ps, verdict, c, a);
    var q := Repaired(Take(ps), w, plan, c, a);
    RepairTogether(ps, w, plan, c, a);
    RepairedFlight(Take(ps), w, plan, c, a);
    RepairedLog(Take(ps), w, plan, c, a);
    if plan in {CloseThenSpawn, SpawnThenClose} && a.connect.Some? {
      var z := a.connect.value;
      ReplacementTogether(Take(ps), w, plan, c, a);
      assert w in Members(ps) && w.id in Chain(w);
      TrackedIsOpen(ps, w, w.id);
      FamilyOf(ps, w, tok);
      hide PlanAt, Repaired, RepairLog, PassInv, Chain, AskedFor, AskedAgain, Together, StayTogether, Ready;
      SpawnFamily(ps, q, w, z, tok);
    } else {
      hide PlanAt, Repaired, RepairLog, PassInv;
      FamilyStays(ps, q, tok);
    }
  }

  /** Every open member of a watched member's endpoint is in its chain, unless asked for again. */
  lemma FamilyOf(ps: Pass, w: Watched, tok: SocketId -> int)
    requires Accounted(ps) && OneFamily(ps, tok) && ps.idx < |ps.watched| && w == ps.watched[ps.idx]
    ensures forall y | Open(ps, y) && tok(y) == tok(w.id) :: y in Chain(w) || AskedAgain(ps.log, tok(y), tok)
  {
    assert w in Members(ps) && w.id in Chain(w);
    TrackedIsOpen(ps, w, w.id);
    hide AskedAgain, AskedFor, Net;
    forall y | Open(ps, y) && tok(y) == tok(w.id) ensures y in Chain(w) || AskedAgain(ps.log, tok(y), tok) {
      if y != w.id && Together(ps, w.id, y) {
        var e :| e in Members(ps) && w.id in Chain(e) && y in Chain(e);
        ChainOwner(ps, e, w.id);
      }
    }
  }

  lemma SpawnFamily(ps: Pass, q: Pass, w: Watched, z: SocketId, tok: SocketId -> int)
    requires OneFamily(ps, tok) && StayTogether(ps, q)
    requires ps.log <= q.log && q.born == ps.born + [z] && ps.closed <= q.closed
    requires w.id in ps.born && tok(z) == tok(w.id)
    requires forall y | Open(ps, y) && tok(y) == tok(w.id) :: y in Chain(w) || AskedAgain(ps.log, tok(y), tok)
    requires forall y | y in Chain(w) :: y in q.closed || Together(q, z, y)
    ensures OneFamily(q, tok)
  {
    hide AskedFor, AskedAgain, Together, Chain;
    forall x | x in q.born ensures AskedFor(q.log, tok(x), tok) { AskedStays(ps.log, q.log, tok(x), tok); }
    forall x, y | Open(q, x) && Open(q, y) && x != y && tok(x) == tok(y)
      ensures Together(q, x, y) || AskedAgain(q.log, tok(x), tok)
    {
      AskedStays(ps.log, q.log, tok(x), tok);
      if x == z || y == z {
        var other := if x == z then y else x;
        assert Open(ps, other);
        TogetherTurns(q, x, y);
      }
    }
  }

  lemma StepFamily(ps: Pass, step: Step, verdict: Verdict, c: Context, a: Answers, tok: SocketId -> int)
    requires Ready(ps, c, a, tok) && PassInv(ps, c.now, tok) && OneFamily(ps, tok)
    ensures OneFamily(Stepped(ps, step, verdict, c, a), tok)
  {
    if step == Repair && PlanAt(ps, verdict, c, a) != Wait {
      RepairFamily(ps, verdict, c, a, tok);
      hide PlanRepair, Repaired, PassInv, OneFamily;
    } else {
      var q := Stepped(ps, step, verdict, c, a);
      PlainStepTogether(ps, step, verdict, c, a);
      PlainStepShrinks(ps, step, verdict, c, a);
      SteppedFate(ps, step, verdict, c, a);
      var more := StepLog(ps, step, verdict, c, a);
      hide Stepped, PlanAt, PassInv, StayTogether;
      FamilyStays(ps, q, tok);
    }
  }

  lemma LookFamily(ps: Pass, c: Context, a: Answers, tok: SocketId -> int)
    requires PassInv(ps, c.now, tok) && Faithful(ps, c, a, tok) && OneFamily(ps, tok)
    ensures OneFamily(Look(ps, c, a), tok)
  {
    if ps.idx >= |ps.watched| || ps.watched[ps.idx].notBefore > c.now {
      SameTogether(ps, Look(ps, c, a));
      FamilyStays(ps, Look(ps, c, a), tok);
    } else {
      var w, at := ps.watched[ps.idx], At(ps, a);
      var j := Judged(at, c, a);
      SameTogether(ps, at);
      FamilyStays(ps, at, tok);
      SameButFlight(ps, at, c.now, tok);
      JudgedMember(at, c, a);
      JudgedTogether(at, c, a);
      JudgedKeeps(ps, c, a, tok);
      var more := JudgedLog(at, c, a);
      hide Judged, Linger, VerdictAt, PassInv, StayTogether, OneFamily;
      FamilyStays(at, j.0, tok);
      StepFamily(j.0, j.1, VerdictAt(w, c), c, a, tok);
      hide Stepped;
    }
  }

  lemma {:induction false} LooksFamily(ps: Pass, c: Context, answers: seq<Answers>, tok: SocketId -> int)
    requires PassInv(ps, c.now, tok) && FaithfulPass(ps, c, answers, tok) && OneFamily(ps, tok)
    ensures OneFamily(Looks(ps, c, answers), tok)
  {
    hide PassInv, Look, Faithful, FaithfulPass, OneFamily;
    if answers != [] {
      var n := |answers| - 1;
      FaithfulPrefix(ps, c, answers, tok, n);
      LooksKeep(ps, c, answers[..n], tok);
      LooksFamily(ps, c, answers[..n], tok);
      LookFamily(Looks(ps, c, answers[..n]), c, answers[n], tok);
    }
  }

  // ── Runs ──

  lemma AddFamily(ps: Pass, e: Watched, n: Note, tok: SocketId -> int)
    requires OneFamily(ps, tok) && ps.spawned == [] && Asks(n) && n.id == e.id && e.id !in ps.born
    ensures OneFamily(Appended(ps, e, n), tok)
  {
    var q := Appended(ps, e, n);
    var last := |q.log| - 1;
    assert n in q.log;
    assert forall m | m in Members(ps) :: m in Members(q);
    hide AskedAgain, Members;
    forall x | x in q.born ensures AskedFor(q.log, tok(x), tok) { AskedStays(ps.log, q.log, tok(x), tok); }
    forall x, y | Open(q, x) && Open(q, y) && x != y && tok(x) == tok(y)
      ensures Together(q, x, y) || AskedAgain(q.log, tok(x), tok)
    {
      AskedStays(ps.log, q.log, tok(x), tok);
      if x == e.id || y == e.id {
        assert AskedFor(ps.log, tok(x), tok);
        SecondAsk(ps.log, n, tok(x), tok);
      }
    }
  }

  lemma SecondAsk(log: seq<Note>, n: Note, t: int, tok: SocketId -> int)
    requires AskedFor(log, t, tok) && Asks(n) && tok(n.id) == t
    ensures AskedAgain(log + [n], t, tok)
  {
    var m :| m in log && Asks(m) && tok(m.id) == t;
    var i :| 0 <= i < |log| && log[i] == m;
    var all := log + [n];
    assert all[i] == m && all[|log|] == n;
  }

  lemma EventFamily(g: Group, e: Event, tok: SocketId -> int)
    requires GroupInv(g, tok) && Plausible(g, e, tok) && OneFamily(g.pass, tok)
    ensures OneFamily(Happen(g, e).pass, tok)
  {
    match e
    case Fail(_) =>
      SameTogether(g.pass, Happen(g, e).pass);
      FamilyStays(g.pass, Happen(g, e).pass, tok);
    case Add(endpoint, a) =>
      if Added(g.pass, endpoint, a) != g.pass {
        var m := Spawned(a.connect.value, endpoint, a.now, a.conntimeo);
        var n := Begins(m.id, a.now, a.conntimeo, []);
        assert Added(g.pass, endpoint, a) == Appended(g.pass, m, n);
        AddFamily(g.pass, m, n, tok);
      }
      hide OneFamily;
    case Check(c, live, answers) =>
      CheckFamily(g.pass, c, live, answers, tok);
  }

  lemma CheckFamily(ps: Pass, c: Context, live: Sockets, answers: seq<Answers>, tok: SocketId -> int)
    requires PassInv(ps, 0, tok) && ps.spawned == [] && OneFamily(ps, tok)
    requires FaithfulPass(Begin(ps, live), c, answers, tok)
    ensures OneFamily(CheckPass(ps, c, live, answers), tok)
  {
    hide PassInv, Begin, Looks, FaithfulPass, OneFamily;
    BeginFamily(ps, live, c.now, tok);
    LooksFamily(Begin(ps, live), c, answers, tok);
    EndFamily(Looks(Begin(ps, live), c, answers), tok);
  }

  lemma BeginFamily(ps: Pass, live: Sockets, now: nat, tok: SocketId -> int)
    requires PassInv(ps, 0, tok) && ps.spawned == [] && OneFamily(ps, tok)
    ensures PassInv(Begin(ps, live), now, tok) && OneFamily(Begin(ps, live), tok)
  {
    var start := Begin(ps, live);
    BeginKeeps(ps, live, now, tok);
    BeginMembers(ps, live);
    BeginLog(ps, live);
    assert start.born == ps.born && start.closed == ps.closed;
    hide PassInv, Begin, OneFamily, StayTogether, Members, SpawnBudget, RepairBudget;
    FamilyStays(ps, start, tok);
  }

  /** The same part-way through a pass. */
  lemma PartFamily(ps: Pass, c: Context, live: Sockets, answers: seq<Answers>, tok: SocketId -> int, k: nat)
    requires PassInv(ps, 0, tok) && ps.spawned == [] && OneFamily(ps, tok)
    requires FaithfulPass(Begin(ps, live), c, answers, tok) && k <= |answers|
    ensures OneFamily(Before(Begin(ps, live), c, answers, k), tok)
  {
    hide PassInv, Begin, Looks, FaithfulPass, OneFamily;
    BeginFamily(ps, live, c.now, tok);
    FaithfulPrefix(Begin(ps, live), c, answers, tok, k);
    LooksFamily(Begin(ps, live), c, answers[..k], tok);
  }

  lemma EndFamily(ps: Pass, tok: SocketId -> int)
    requires OneFamily(ps, tok)
    ensures OneFamily(End(ps), tok)
  {
    assert Members(End(ps)) == Members(ps);
    SameTogether(ps, End(ps));
    FamilyStays(ps, End(ps), tok);
  }

  lemma StartFamily(members: seq<Joined>, now: nat, tok: SocketId -> int)
    requires GoodStart(members, tok)
    ensures OneFamily(Started(members, now), tok)
  {
    var ps := Started(members, now);
    forall x | x in ps.born ensures AskedFor(ps.log, tok(x), tok) {
      var i :| 0 <= i < |ps.born| && ps.born[i] == x;
      assert ps.log[i].id == x && ps.log[i] in ps.log;
    }
    forall x, y | x in ps.born && y in ps.born && x != y ensures tok(x) != tok(y) {
      var i :| 0 <= i < |ps.born| && ps.born[i] == x;
      var j :| 0 <= j < |ps.born| && ps.born[j] == y;
      assert members[i].id == x && members[j].id == y;
    }
  }

  lemma {:induction false} FamiliesHold(members: seq<Joined>, now: nat, events: seq<Event>, tok: SocketId -> int)
    requires GoodRun(members, now, events, tok)
    ensures OneFamily(Run(Start(members, now), events).pass, tok)
  {
    hide GroupInv, Happen, Plausible, PlausibleRun, OneFamily;
    if events == [] {
      StartFamily(members, now, tok);
    } else {
      var n := |events| - 1;
      PlausiblePrefix(Start(members, now), events, tok, n);
      FamiliesHold(members, now, events[..n], tok);
      StartHolds(members, now, tok);
      RunHolds(Start(members, now), events[..n], tok);
      EventFamily(Run(Start(members, now), events[..n]), events[n], tok);
    }
  }

  /** And part-way through any of its passes. */
  lemma FamiliesHoldWithin(members: seq<Joined>, now: nat, events: seq<Event>, tok: SocketId -> int, n: nat, k: nat)
    requires GoodRun(members, now, events, tok) && n < |events| && events[n].Check? && k < |events[n].answers|
    ensures OneFamily(LookOf(members, now, events, n, k), tok)
  {
    PlausiblePrefix(Start(members, now), events, tok, n);
    FamiliesHold(members, now, events[..n], tok);
    StartHolds(members, now, tok);
    RunHolds(Start(members, now), events[..n], tok);
    hide Run, PassInv, Begin, Looks, FaithfulPass, OneFamily, SpawnBudget, RepairBudget;
    PartFamily(Run(Start(members, now), events[..n]).pass, events[n].c, events[n].live, events[n].answers, tok, k);
  }

  /** In every run two open members of one endpoint are in one watched member's chain, or one of
      them is not in flight and the application has asked for their endpoint again. */
  lemma SharedEndpoint(members: seq<Joined>, now: nat, events: seq<Event>, tok: SocketId -> int,
                       x: SocketId, y: SocketId)
    requires GoodRun(members, now, events, tok)
    ensures var ps := Run(Start(members, now), events).pass;
            Open(ps, x) && Open(ps, y) && x != y && tok(x) == tok(y) ==>
              || Together(ps, x, y)
              || ((x !in ps.flight || y !in ps.flight) && AskedAgain(ps.log, tok(x), tok))
  {
    FamiliesHold(members, now, events, tok);
    StartHolds(members, now, tok);
    RunHolds(Start(members, now), events, tok);
    hide Run, GoodRun, Together, AskedAgain, AskedFor, Accounted, TokensOk, FreshlySpawned, SpawnBudget, RepairBudget;
  }
}
