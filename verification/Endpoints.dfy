/** Where members are connected to: over every run, only where the application asked. */
module Endpoints {
  import opened SrtTypes
  import opened Watch
  import opened RepairPlan
  import opened CheckGroup
  import opened GroupLaws
  import opened PassSafety
  import opened PassTheorems
  import opened GroupRuns
  import opened GroupTheorems

  /** Address, source and token of every member are one of `asked`. */
  ghost predicate Within(ps: Pass, asked: set<Endpoint>) {
    forall e | e in Members(ps) :: e.endpoint in asked
  }

  ghost function Asked(members: seq<Joined>, events: seq<Event>): set<Endpoint> {
    (set m | m in members :: m.endpoint) + (set e | e in events && e.Add? :: e.endpoint)
  }

  lemma StepWithin(ps: Pass, step: Step, verdict: Verdict, c: Context, a: Answers, asked: set<Endpoint>)
    requires ps.idx < |ps.watched| && Within(ps, asked)
    ensures Within(Stepped(ps, step, verdict, c, a), asked)
  {
    var w := ps.watched[ps.idx];
    SwapRemoveElems(ps.watched, ps.idx);
    assert w in Members(ps);
    if step == Repair && PlanAt(ps, verdict, c, a) != Wait {
      var plan := PlanAt(ps, verdict, c, a);
      RepairedMembers(Take(ps), w, plan, c, a);
      assert forall e | e in Members(Take(ps)) :: e in Members(ps);
      hide PlanRepair, Repaired;
    } else {
      PlainStepShrinks(ps, step, verdict, c, a);
      hide Stepped, PlanRepair;
    }
  }

  lemma LookWithin(ps: Pass, c: Context, a: Answers, asked: set<Endpoint>)
    requires Within(ps, asked)
    ensures Within(Look(ps, c, a), asked)
  {
    if ps.idx < |ps.watched| && ps.watched[ps.idx].notBefore <= c.now {
      var at := At(ps, a);
      var j := Judged(at, c, a);
      JudgedSame(at, c, a);
      assert Members(at) == Members(ps);
      hide Judged;
      assert Within(j.0, asked);
      hide Members;
      StepWithin(j.0, j.1, VerdictAt(ps.watched[ps.idx], c), c, a, asked);
      hide Stepped, VerdictAt;
    } else {
      assert Members(Look(ps, c, a)) == Members(ps);
    }
  }

  lemma {:induction false} LooksWithin(ps: Pass, c: Context, answers: seq<Answers>, asked: set<Endpoint>)
    requires Within(ps, asked)
    ensures Within(Looks(ps, c, answers), asked)
  {
    hide Look, Within;
    if answers != [] {
      var n := |answers| - 1;
      LooksWithin(ps, c, answers[..n], asked);
      LookWithin(Looks(ps, c, answers[..n]), c, answers[n], asked);
    }
  }

  lemma HappenWithin(g: Group, e: Event, asked: set<Endpoint>)
    requires Within(g.pass, asked) && (e.Add? ==> e.endpoint in asked) && g.pass.spawned == []
    ensures Within(Happen(g, e).pass, asked) && Happen(g, e).pass.spawned == []
  {
    match e
    case Fail(_) =>
    case Add(_, _) =>
    case Check(c, live, answers) =>
      BeginMembers(g.pass, live);
      LooksWithin(Begin(g.pass, live), c, answers, asked);
      hide Looks, Begin;
  }

  /** In every run every member watched, the application's and all the bridge has connected to replace
      them, is connected to an endpoint the application gave, address and token together. */
  lemma {:induction false} OnlyWhereAsked(members: seq<Joined>, now: nat, events: seq<Event>)
    ensures Within(Run(Start(members, now), events).pass, Asked(members, events))
    ensures Run(Start(members, now), events).pass.spawned == []
  {
    if events != [] {
      var n := |events| - 1;
      var g := Run(Start(members, now), events[..n]);
      OnlyWhereAsked(members, now, events[..n]);
      assert Asked(members, events[..n]) <= Asked(members, events);
      assert events[n] in events;
      assert Within(g.pass, Asked(members, events));
      HappenWithin(g, events[n], Asked(members, events));
      hide Happen;
    } else {
      var ps := Started(members, now);
      forall e | e in Members(ps) ensures e.endpoint in Asked(members, []) {
        var i :| 0 <= i < |ps.watched| && ps.watched[i] == e;
        assert members[i] in members;
      }
    }
  }
}
