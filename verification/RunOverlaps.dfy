/** Overlaps over whole runs, and the siblings a repair leaves its endpoint to. */
module RunOverlaps {
  import opened SrtTypes
  import opened Journal
  import opened RepairPlan
  import opened CheckGroup
  import opened PassSafety
  import opened PassTheorems
  import opened Clocks
  import opened Overlaps
  import opened GroupRuns
  import opened GroupTheorems
  import opened RunClocks

  // ── Every overlap began alone ──

  /** Look `k` of event `n` made note `i` of the journal, and was alone. */
  ghost predicate AloneAt(members: seq<Joined>, now: nat, events: seq<Event>, tok: SocketId -> int,
                          n: nat, k: nat, i: nat) {
    && n < |events| && events[n].Check? && k < |events[n].answers|
    && var at, c, a := LookOf(members, now, events, n, k), events[n].c, events[n].answers[k];
       |at.log| <= i < |Look(at, c, a).log| && IsAlone(at, c, a, tok)
  }

  /** In a pass. */
  ghost predicate AloneIn(ps: Pass, c: Context, answers: seq<Answers>, tok: SocketId -> int, k: nat, i: nat) {
    && k < |answers|
    && var at := Before(ps, c, answers, k);
       |at.log| <= i < |Look(at, c, answers[k]).log| && IsAlone(at, c, answers[k], tok)
  }

  lemma {:induction false} PassOverlaps(ps: Pass, c: Context, answers: seq<Answers>, tok: SocketId -> int, i: nat)
    requires PassInv(ps, c.now, tok) && FaithfulPass(ps, c, answers, tok) && Clocked(ps)
    requires |ps.log| <= i && TakesOver(Looks(ps, c, answers).log, i)
    ensures exists k: nat :: AloneIn(ps, c, answers, tok, k, i)
  {
    var n := |answers| - 1;
    hide PassInv, Look, Faithful, FaithfulPass, Clocked, IsAlone, TakesOver, AloneIn;
    if answers != [] {
      var at := Looks(ps, c, answers[..n]);
      var q := Look(at, c, answers[n]);
      FaithfulPrefix(ps, c, answers, tok, n);
      LooksKeep(ps, c, answers[..n], tok);
      LooksClocked(ps, c, answers[..n], tok);
      var more := LookLog(at, c, answers[n]);
      if i < |at.log| {
        PrefixOver(at.log, q.log, i);
        PassOverlaps(ps, c, answers[..n], tok, i);
        var k: nat :| AloneIn(ps, c, answers[..n], tok, k, i);
        AloneInLater(ps, c, answers, tok, k, i);
      } else {
        OverReaches(q.log, i);
        LookOverlaps(at, c, answers[n], tok, i);
        AloneInLast(ps, c, answers, tok, i);
      }
    } else {
      OverReaches(ps.log, i);
    }
  }

  lemma AloneInLater(ps: Pass, c: Context, answers: seq<Answers>, tok: SocketId -> int, k: nat, i: nat)
    requires answers != [] && AloneIn(ps, c, answers[..|answers| - 1], tok, k, i)
    ensures AloneIn(ps, c, answers, tok, k, i)
  {
    assert answers[..|answers| - 1][..k] == answers[..k];
    hide Looks, Look, IsAlone;
  }

  lemma AloneInLast(ps: Pass, c: Context, answers: seq<Answers>, tok: SocketId -> int, i: nat)
    requires answers != []
    requires var at, a := Looks(ps, c, answers[..|answers| - 1]), answers[|answers| - 1];
             |at.log| <= i < |Look(at, c, a).log| && IsAlone(at, c, a, tok)
    ensures AloneIn(ps, c, answers, tok, |answers| - 1, i)
  {
    hide Looks, Look, IsAlone;
  }

  lemma LookOverlaps(at: Pass, c: Context, a: Answers, tok: SocketId -> int, i: nat)
    requires PassInv(at, c.now, tok) && Clocked(at) && |at.log| <= i && TakesOver(Look(at, c, a).log, i)
    ensures IsAlone(at, c, a, tok)
  {
    hide PassInv, Look, PlanOf, IsAlone;
    if at.idx < |at.watched| {
      OverlapsExactly(at, c, a, tok);
      OverlapIsAlone(at, c, a, tok);
    } else {
      NoLookNoLog(at, c, a);
    }
  }

  lemma {:induction false} LooksGrow(ps: Pass, c: Context, answers: seq<Answers>)
    ensures ps.log <= Looks(ps, c, answers).log
  {
    hide Look;
    if answers != [] {
      var n := |answers| - 1;
      LooksGrow(ps, c, answers[..n]);
      var more := LookLog(Looks(ps, c, answers[..n]), c, answers[n]);
    }
  }

  /** What an event adds to the journal. */
  lemma EventOver(g: Group, e: Event, tok: SocketId -> int, i: nat)
    requires GroupInv(g, tok) && ClockInv(g) && Plausible(g, e, tok) && TakesOver(Happen(g, e).pass.log, i)
    ensures || TakesOver(g.pass.log, i)
            || (e.Check? && exists k: nat :: AloneIn(Begin(g.pass, e.live), e.c, e.answers, tok, k, i))
  {
    match e
    case Fail(_) =>
    case Add(endpoint, a) =>
      var q := Added(g.pass, endpoint, a);
      if i < |g.pass.log| { PrefixOver(g.pass.log, q.log, i); }
    case Check(c, live, answers) =>
      var start := Begin(g.pass, live);
      BeginKeeps(g.pass, live, c.now, tok);
      BeginClocks(g.pass, live);
      BeginLog(g.pass, live);
      LooksGrow(start, c, answers);
      hide PassInv, Clocked, Timely, Begin, Looks, SpawnBudget, RepairBudget;
      hide Faithful, FaithfulPass, AloneIn, TakesOver, Look;
      if AnyDue(g.pass.watched, c.now) {
        if i < |g.pass.log| {
          PrefixOver(g.pass.log, Looks(start, c, answers).log, i);
        } else {
          PassOverlaps(start, c, answers, tok, i);
        }
      }
  }

  lemma AloneLater(members: seq<Joined>, now: nat, events: seq<Event>, tok: SocketId -> int, n: nat, k: nat, i: nat)
    requires events != [] && AloneAt(members, now, events[..|events| - 1], tok, n, k, i)
    ensures AloneAt(members, now, events, tok, n, k, i)
  {
    assert events[..|events| - 1][..n] == events[..n];
    hide Before, Look, IsAlone, Run, Begin;
  }

  lemma StartOver(members: seq<Joined>, now: nat, i: nat)
    ensures !TakesOver(Started(members, now).log, i)
  {
  }

  lemma LastAlone(members: seq<Joined>, now: nat, events: seq<Event>, tok: SocketId -> int, i: nat)
    requires events != []
    requires var g, e := Run(Start(members, now), events[..|events| - 1]), events[|events| - 1];
             e.Check? && exists k: nat :: AloneIn(Begin(g.pass, e.live), e.c, e.answers, tok, k, i)
    ensures exists n: nat, k: nat :: AloneAt(members, now, events, tok, n, k, i)
  {
    hide IsAlone, Look, Run, Before, Begin;
    var last := |events| - 1;
    var g, e := Run(Start(members, now), events[..last]), events[last];
    var k: nat :| AloneIn(Begin(g.pass, e.live), e.c, e.answers, tok, k, i);
    assert AloneAt(members, now, events, tok, last, k, i);
  }

  lemma {:induction false} OverIsAlone(members: seq<Joined>, now: nat, events: seq<Event>, tok: SocketId -> int, i: nat)
    requires GoodRun(members, now, events, tok) && TakesOver(Run(Start(members, now), events).pass.log, i)
    ensures exists n: nat, k: nat :: AloneAt(members, now, events, tok, n, k, i)
  {
    if events == [] {
      StartOver(members, now, i);
    } else {
      var last := |events| - 1;
      var g, e := Run(Start(members, now), events[..last]), events[last];
      PlausiblePrefix(Start(members, now), events, tok, last);
      StartHolds(members, now, tok);
      RunHolds(Start(members, now), events[..last], tok);
      ClocksHold(members, now, events[..last], tok);
      EventOver(g, e, tok, i);
      hide GroupInv, ClockInv, Happen, Plausible, PlausibleRun, AloneAt, AloneIn, TakesOver;
      if TakesOver(g.pass.log, i) {
        OverIsAlone(members, now, events[..last], tok, i);
        var n: nat, k: nat :| AloneAt(members, now, events[..last], tok, n, k, i);
        AloneLater(members, now, events, tok, n, k, i);
      } else {
        LastAlone(members, now, events, tok, i);
      }
    }
  }

  /** Whenever, in any run, a member that was begun to replace another, or was handed it, is open
      beside it, that was done by a look at which nothing outside the chain was up or shook
      hands. */
  lemma EveryOverlapIsAlone(members: seq<Joined>, now: nat, events: seq<Event>, tok: SocketId -> int,
                            m: nat, r: SocketId, s: SocketId)
    requires GoodRun(members, now, events, tok)
    requires m <= |Run(Start(members, now), events).pass.log|
    requires OverlapAt(Run(Start(members, now), events).pass.log, 0, m, r, s)
    ensures exists n: nat, k: nat, i: nat ::
              && AloneAt(members, now, events, tok, n, k, i) && i < m
              && var note := Run(Start(members, now), events).pass.log[i];
                 Takes(note) && note.id == r && s in note.chain
  {
    hide Run, GoodRun, AloneAt, OverlapAt;
    var log := Run(Start(members, now), events).pass.log;
    OverlapBegan(log, 0, m, r, s);
    var i :| 0 <= i < m && TakesOver(log, i) && log[i].id == r && s in log[i].chain;
    OverIsAlone(members, now, events, tok, i);
    var n: nat, k: nat :| AloneAt(members, now, events, tok, n, k, i);
  }
}
