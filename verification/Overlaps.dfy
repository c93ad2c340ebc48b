/** Make before break, by the order of the journal: when a replacement is open beside a member it
    replaces, and what the rest of the group then shows. */
module Overlaps {
  import opened SrtTypes
  import opened Watch
  import opened Journal
  import opened RepairPlan
  import opened CheckGroup
  import opened GroupLaws
  import opened PassSafety
  import opened Clocks
  import opened PassTheorems

  /** A look whose plan connects a replacement that libsrt grants. */
  ghost predicate Replaces(ps: Pass, c: Context, a: Answers) {
    PlanOf(ps, c, a) in {Some(CloseThenSpawn), Some(SpawnThenClose)} && a.connect.Some?
  }

  ghost predicate HandsOver(ps: Pass, c: Context, a: Answers) {
    PlanOf(ps, c, a).Some? && PlanOf(ps, c, a).value.HandToSibling?
  }

  /** What a look lets replace others, and after what: a reading, the closes it makes first, then
      the replacement or the hand-over. */
  lemma LookTakes(ps: Pass, c: Context, a: Answers)
    requires ps.idx < |ps.watched|
    ensures var q := Look(ps, c, a);
            var w := ps.watched[ps.idx];
            var ends := if PlanOf(ps, c, a) == Some(CloseThenSpawn) then EndsOf(Chain(w)) else [];
            && ps.log <= q.log && |ps.spawned| <= |q.spawned|
            && (Replaces(ps, c, a) ==>
                  q.log == ps.log + [Judging(w, c, a)] + ends + [Begun(w, a.connect.value, c, a)] && q.spawned != [])
            && (HandsOver(ps, c, a) ==>
                  q.log == ps.log + [Judging(w, c, a)] + [] + [Hands(PlanOf(ps, c, a).value.other, Chain(w))])
            && (!Replaces(ps, c, a) && !HandsOver(ps, c, a) ==> forall i | |ps.log| <= i < |q.log| :: !Takes(q.log[i]))
  {
    if PlanOf(ps, c, a).Some? {
      PlannedTakes(ps, c, a);
    } else {
      UnplannedTakes(ps, c, a);
    }
    hide Look, PlanOf, Judging, EndsOf, Chain;
  }

  lemma PlannedTakes(ps: Pass, c: Context, a: Answers)
    requires PlanOf(ps, c, a).Some?
    ensures var q, w, plan := Look(ps, c, a), ps.watched[ps.idx], PlanOf(ps, c, a).value;
            var ends := if plan == CloseThenSpawn then EndsOf(Chain(w)) else [];
            && ps.log <= q.log && |ps.spawned| <= |q.spawned|
            && (Replaces(ps, c, a) ==>
                  q.log == ps.log + [Judging(w, c, a)] + ends + [Begun(w, a.connect.value, c, a)] && q.spawned != [])
            && (plan.HandToSibling? ==>
                  q.log == ps.log + [Judging(w, c, a)] + [] + [Hands(plan.other, Chain(w))])
            && (!Replaces(ps, c, a) && !plan.HandToSibling? ==>
                  forall i | |ps.log| <= i < |q.log| :: !Takes(q.log[i]))
  {
    var w, j, plan := ps.watched[ps.idx], Judged(At(ps, a), c, a).0, PlanOf(ps, c, a).value;
    RepairLook(ps, c, a);
    JudgedNotes(ps, c, a);
    var v := j.watched[j.idx];
    if plan.HandToSibling? { HandFinds(ps, c, a); }
    assert Chain(v) == Chain(w) && Begun(v, a.connect.GetOr(0), c, a) == Begun(w, a.connect.GetOr(0), c, a);
    hide Judged, PlanOf, Repaired, Look, Chain, Judging, HasId, Begun, EndsOf;
    if plan != Wait { RepairTakes(Take(j), v, plan, c, a); }
  }

  /** A look that repairs has logged its reading, and no close, when it turns to its plan. */
  lemma JudgedNotes(ps: Pass, c: Context, a: Answers)
    requires PlanOf(ps, c, a).Some?
    ensures Judged(At(ps, a), c, a).0.log == ps.log + [Judging(ps.watched[ps.idx], c, a)]
    ensures !Takes(Judging(ps.watched[ps.idx], c, a))
  {
    JudgedMember(At(ps, a), c, a);
    hide Judged, Linger, VerdictAt;
  }

  lemma UnplannedTakes(ps: Pass, c: Context, a: Answers)
    requires ps.idx < |ps.watched| && PlanOf(ps, c, a).None?
    ensures var q := Look(ps, c, a);
            && ps.log <= q.log && |ps.spawned| <= |q.spawned|
            && forall i | |ps.log| <= i < |q.log| :: !Takes(q.log[i])
  {
    var w, at := ps.watched[ps.idx], At(ps, a);
    if w.notBefore <= c.now {
      var j := Judged(at, c, a);
      JudgedMember(at, c, a);
      NoRepairTakes(j.0, j.1, VerdictAt(w, c), c, a);
      hide Judged, VerdictAt, Stepped, Linger;
    }
  }

  lemma RepairTakes(ps: Pass, w: Watched, plan: Plan, c: Context, a: Answers)
    requires plan != Wait
    requires plan.HandToSibling? ==> HasId(ps.watched, plan.other) || HasId(ps.spawned, plan.other)
    ensures var q := Repaired(ps, w, plan, c, a);
            var spawns := plan in {CloseThenSpawn, SpawnThenClose} && a.connect.Some?;
            && ps.log <= q.log && |ps.spawned| <= |q.spawned|
            && (spawns ==>
                  && q.spawned != []
                  && q.log == ps.log + (if plan == CloseThenSpawn then EndsOf(Chain(w)) else []) +
                              [Begun(w, a.connect.value, c, a)])
            && (plan.HandToSibling? ==> q.log == ps.log + [Hands(plan.other, Chain(w))])
            && (!spawns && !plan.HandToSibling? ==> forall i | |ps.log| <= i < |q.log| :: !Takes(q.log[i]))
  {
    RepairedLog(ps, w, plan, c, a);
    RepairSpawns(ps, w, plan, c, a);
    if plan in {CloseThenSpawn, SpawnThenClose} && a.connect.Some? {
      RepairLogIs(ps, w, plan, c, a);
    } else if !plan.HandToSibling? {
      assert RepairLog(ps, w, plan, c, a) == EndsOf(Chain(w));
    }
    hide Repaired, Chain;
  }

  lemma RepairLogIs(ps: Pass, w: Watched, plan: Plan, c: Context, a: Answers)
    requires plan in {CloseThenSpawn, SpawnThenClose} && a.connect.Some?
    ensures RepairLog(ps, w, plan, c, a) ==
            (if plan == CloseThenSpawn then EndsOf(Chain(w)) else []) + [Begun(w, a.connect.value, c, a)]
  {
  }

  lemma RepairSpawns(ps: Pass, w: Watched, plan: Plan, c: Context, a: Answers)
    requires plan != Wait
    ensures |ps.spawned| <= |Repaired(ps, w, plan, c, a).spawned|
    ensures plan in {CloseThenSpawn, SpawnThenClose} && a.connect.Some? ==> Repaired(ps, w, plan, c, a).spawned != []
  {
  }

  lemma NoRepairTakes(ps: Pass, step: Step, verdict: Verdict, c: Context, a: Answers)
    requires ps.idx < |ps.watched| && step != Repair
    ensures var q := Stepped(ps, step, verdict, c, a);
            && ps.log <= q.log && q.spawned == ps.spawned
            && forall i | |ps.log| <= i < |q.log| :: !Takes(q.log[i])
  {
  }

  /** A look lets a member take over open ones exactly when it makes before it breaks, and libsrt
      grants the member, or hands the chain over; closing first, it has closed the whole chain by
      then. */
  lemma OverlapsExactly(ps: Pass, c: Context, a: Answers, tok: SocketId -> int)
    requires PassInv(ps, c.now, tok) && Agrees(ps) && ps.idx < |ps.watched|
    ensures (exists i | |ps.log| <= i < |Look(ps, c, a).log| :: TakesOver(Look(ps, c, a).log, i)) <==>
            HandsOver(ps, c, a) || (PlanOf(ps, c, a) == Some(SpawnThenClose) && a.connect.Some?)
  {
    var w, q := ps.watched[ps.idx], Look(ps, c, a);
    LookTakes(ps, c, a);
    assert w in Members(ps) && w.id in Chain(w);
    TrackedIsOpen(ps, w, w.id);
    assert Ends(w.id) !in ps.log;
    var r := Judging(w, c, a);
    assert Ends(w.id) !in ps.log + [r];
    hide PlanOf, Look, Members, PassInv, Agrees, Chain, Judging, TakesOver;
    if HandsOver(ps, c, a) {
      OpenBefore(ps.log + [r], Hands(PlanOf(ps, c, a).value.other, Chain(w)), w.id);
    } else if Replaces(ps, c, a) {
      var n := Begun(w, a.connect.value, c, a);
      if PlanOf(ps, c, a) == Some(CloseThenSpawn) {
        JudgingReads(w, c, a);
        ClosedBefore(ps.log, r, n);
      } else {
        OpenBefore(ps.log + [r], n, w.id);
      }
    } else {
      NoneOver(q.log, |ps.log|);
    }
  }

  lemma NoneOver(log: seq<Note>, from: nat)
    requires forall i | from <= i < |log| :: !Takes(log[i])
    ensures forall i | from <= i < |log| :: !TakesOver(log, i)
  {
  }

  lemma ClosedBefore(log: seq<Note>, r: Note, n: Note)
    requires r.Reads? && n.Begins?
    ensures var all := log + [r] + EndsOf(n.chain) + [n];
            forall i | |log| <= i < |all| :: !TakesOver(all, i)
  {
    var all := log + [r] + EndsOf(n.chain) + [n];
    var last := |all| - 1;
    assert all[..last] == log + [r] + EndsOf(n.chain);
    forall s | s in n.chain ensures Ends(s) in all[..last] {
      var k :| 0 <= k < |n.chain| && n.chain[k] == s;
      assert EndsOf(n.chain)[k] == Ends(s);
    }
  }

  lemma OpenBefore(log: seq<Note>, n: Note, s: SocketId)
    requires Takes(n) && s in n.chain && Ends(s) !in log
    ensures TakesOver(log + [] + [n], |log|)
  {
    var all := log + [] + [n];
    assert all[..|log|] == log;
  }

  /** Make before break only alone, wherever in a pass it comes: whenever a member that look `k`
      begins as a replacement, or hands a chain, is open beside a member it replaces, `IsAlone`
      held at that look. */
  lemma MakeBeforeBreakIsAlone(ps: Pass, c: Context, answers: seq<Answers>, tok: SocketId -> int, k: nat,
                               m: nat, r: SocketId, s: SocketId)
    requires PassInv(ps, c.now, tok) && FaithfulPass(ps, c, answers, tok) && Clocked(ps) && k < |answers|
    ensures var at := Before(ps, c, answers, k);
            var q := Look(at, c, answers[k]);
            m <= |q.log| && OverlapAt(q.log, |at.log|, m, r, s) ==> IsAlone(at, c, answers[k], tok)
  {
    var at, a := Before(ps, c, answers, k), answers[k];
    var q := Look(at, c, a);
    BeforeInv(ps, c, answers, tok, k);
    FaithfulPrefix(ps, c, answers, tok, k);
    LooksClocked(ps, c, answers[..k], tok);
    if m <= |q.log| && OverlapAt(q.log, |at.log|, m, r, s) {
      OverlapBegan(q.log, |at.log|, m, r, s);
      hide PassInv, Looks, Look, PlanOf, IsAlone, TakesOver, OverlapAt, Agrees, Clocked;
      if at.idx < |at.watched| {
        OverlapsExactly(at, c, a, tok);
        OverlapIsAlone(at, c, a, tok);
      } else {
        NoLookNoLog(at, c, a);
      }
    }
  }

  lemma NoLookNoLog(ps: Pass, c: Context, a: Answers)
    requires ps.idx >= |ps.watched|
    ensures Look(ps, c, a).log == ps.log && Look(ps, c, a).spawned == ps.spawned
  {
  }

  // ── One overlap a pass ──

  ghost predicate NoneBegun(log: seq<Note>, from: nat) {
    forall i | from <= i < |log| :: !log[i].Begins?
  }

  ghost predicate FirstOver(log: seq<Note>, from: nat) {
    forall i, j | from <= j < i < |log| && TakesOver(log, i) :: !log[j].Begins?
  }

  /** Of the replacements a pass has begun, from instant `from` of the journal on, only the first
      may have been begun over a member it replaces, and no chain has been handed over after it;
      and the pass has spawned if it has begun any. */
  ghost predicate FirstOnly(ps: Pass, from: nat) {
    && from <= |ps.log|
    && (ps.spawned == [] ==> NoneBegun(ps.log, from))
    && FirstOver(ps.log, from)
  }

  lemma LookFirstOnly(ps: Pass, c: Context, a: Answers, tok: SocketId -> int, from: nat)
    requires PassInv(ps, c.now, tok) && Clocked(ps) && FirstOnly(ps, from)
    ensures FirstOnly(Look(ps, c, a), from)
  {
    var q := Look(ps, c, a);
    if ps.idx >= |ps.watched| {
      NoLookNoLog(ps, c, a);
      return;
    }
    LookTakes(ps, c, a);
    OverlapsExactly(ps, c, a, tok);
    if ps.spawned != [] { SpawnedClosesFirst(ps, c, a, tok); }
    hide Look, PlanOf, PassInv, Clocked, Judging, Begun, TakesOver, Chain, EndsOf, NoneBegun, FirstOver;
    if exists i | |ps.log| <= i < |q.log| :: TakesOver(q.log, i) {
      var r, n := Judging(ps.watched[ps.idx], c, a), q.log[|q.log| - 1];
      JudgingReads(ps.watched[ps.idx], c, a);
      LastIsFirst(ps.log, r, n, from);
    } else {
      StaysFirst(ps.log, q.log, from);
    }
    if q.spawned == [] { StaysUnbegun(ps.log, q.log, from); }
  }

  lemma StaysUnbegun(log: seq<Note>, later: seq<Note>, from: nat)
    requires log <= later && NoneBegun(log, from)
    requires forall i | |log| <= i < |later| :: !Takes(later[i]) || later[i].Hands?
    ensures NoneBegun(later, from)
  {
  }

  lemma StaysFirst(log: seq<Note>, later: seq<Note>, from: nat)
    requires log <= later && FirstOver(log, from)
    requires forall i | |log| <= i < |later| :: !TakesOver(later, i)
    ensures FirstOver(later, from)
  {
    forall i | 0 <= i < |log| ensures TakesOver(later, i) == TakesOver(log, i) {
      PrefixOver(log, later, i);
    }
    hide TakesOver;
  }

  /** After a journal that begins no one, a note that takes over comes first. */
  lemma LastIsFirst(log: seq<Note>, r: Note, n: Note, from: nat)
    requires r.Reads? && NoneBegun(log, from)
    ensures FirstOver(log + [r] + [] + [n], from)
  {
  }

  lemma JudgingReads(w: Watched, c: Context, a: Answers)
    ensures Judging(w, c, a).Reads?
  {
  }

  /** Once a pass has spawned, its later repairs close first, join a sibling, give up or wait. */
  lemma SpawnedClosesFirst(ps: Pass, c: Context, a: Answers, tok: SocketId -> int)
    requires PassInv(ps, c.now, tok) && ps.spawned != []
    ensures var plan := PlanOf(ps, c, a);
            plan.Some? ==> plan.value in {CloseNow, CloseThenSpawn, Wait} || plan.value.JoinSibling?
  {
    if PlanOf(ps, c, a).Some? {
      RepairLook(ps, c, a);
      JudgedKeeps(ps, c, a, tok);
      SpawnedStopsOverlap(Judged(At(ps, a), c, a).0, VerdictAt(ps.watched[ps.idx], c), c, a);
    }
    hide Judged, VerdictAt, PlanRepair;
  }

  lemma {:induction false} LooksFirstOnly(ps: Pass, c: Context, answers: seq<Answers>, tok: SocketId -> int, from: nat)
    requires PassInv(ps, c.now, tok) && FaithfulPass(ps, c, answers, tok) && Clocked(ps) && FirstOnly(ps, from)
    ensures FirstOnly(Looks(ps, c, answers), from)
  {
    hide PassInv, Look, Faithful, FaithfulPass, Clocked, FirstOnly;
    if answers != [] {
      var n := |answers| - 1;
      FaithfulPrefix(ps, c, answers, tok, n);
      LooksKeep(ps, c, answers[..n], tok);
      LooksClocked(ps, c, answers[..n], tok);
      LooksFirstOnly(ps, c, answers[..n], tok, from);
      LookFirstOnly(Looks(ps, c, answers[..n]), c, answers[n], tok, from);
    }
  }

  /** At every instant of a pass, of the replacements it has begun only its very first is open
      beside a member it replaces; and so may be a sibling it has handed a chain before that. */
  lemma OneOverlapPerPass(ps: Pass, c: Context, answers: seq<Answers>, tok: SocketId -> int,
                          m: nat, r: SocketId, s: SocketId)
    requires PassInv(ps, c.now, tok) && FaithfulPass(ps, c, answers, tok) && Clocked(ps) && ps.spawned == []
    ensures var log := Looks(ps, c, answers).log;
            m <= |log| && OverlapAt(log, |ps.log|, m, r, s) ==>
              exists i | |ps.log| <= i < m ::
                Takes(log[i]) && log[i].id == r && s in log[i].chain && forall j | |ps.log| <= j < i :: !log[j].Begins?
  {
    var q := Looks(ps, c, answers);
    LooksFirstOnly(ps, c, answers, tok, |ps.log|);
    hide PassInv, Looks, Clocked, FaithfulPass;
    if m <= |q.log| && OverlapAt(q.log, |ps.log|, m, r, s) {
      OverlapBegan(q.log, |ps.log|, m, r, s);
      hide OverlapAt;
      var i :| |ps.log| <= i < m && TakesOver(q.log, i) && q.log[i].id == r && s in q.log[i].chain;
    }
  }
}
