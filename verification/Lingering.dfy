/** When a look closes members. */
module Lingering {
  import opened SrtTypes
  import opened Watch
  import opened RepairPlan
  import opened CheckGroup
  import opened GroupLaws
  import opened PassSafety

  /** The clock that must have run out, by verdict, for a look at `w` to close anything: none for
      a member gone, the linger for one that is up, the connect deadline for a handshake, the
      grace for one stranded. */
  ghost predicate MayClose(w: Watched, verdict: Verdict, now: nat) {
    match verdict
    case Gone => true
    case Confirmed | Masked => w.closeSupersededAt.Some? && now >= w.closeSupersededAt.value
    case Handshaking => now >= w.resolveBy
    case Stranded | BrokenLive =>
      w.strandedSince.Some? && now - w.strandedSince.value >= STRANDED_MEMBER_GRACE
  }

  lemma Suffix(a: seq<SocketId>, b: seq<SocketId>, mid: seq<SocketId>, whole: seq<SocketId>)
    requires mid == a + b && mid <= whole
    ensures a <= whole && whole[|a|..] == b + whole[|mid|..]
  {
  }

  /** What judging decides is backed by the clocks the member came with. */
  lemma JudgedClock(ps: Pass, c: Context, a: Answers)
    requires ps.idx < |ps.watched|
    ensures var w, verdict := ps.watched[ps.idx], VerdictAt(ps.watched[ps.idx], c);
            var step := Judged(ps, c, a).1;
            && (Linger(w, verdict, c.now, a).1 != [] ==>
                  verdict in {Confirmed, Masked} && MayClose(w, verdict, c.now))
            && (step in {Repair, Abandon} ==>
                  verdict in {Stranded, BrokenLive, Handshaking} && MayClose(w, verdict, c.now))
  {
    hide ClassifyWatched;
  }

  lemma StepCloses(ps: Pass, step: Step, verdict: Verdict, c: Context, a: Answers)
    requires ps.idx < |ps.watched|
    ensures var q, w := Stepped(ps, step, verdict, c, a), ps.watched[ps.idx];
            && ps.closed <= q.closed
            && (step.Keep? || step.Recheck? ==> q.closed == ps.closed)
            && (step == Drop ==> q.closed == ps.closed + w.supersedes)
            && forall x | x in q.closed[|ps.closed|..] :: x in Chain(w)
  {
    var w := ps.watched[ps.idx];
    if step == Repair && PlanAt(ps, verdict, c, a) != Wait {
      RepairedFlight(Take(ps), w, PlanAt(ps, verdict, c, a), c, a);
    }
    hide PlanRepair, Repaired;
  }

  /** What the step closes, after judging. */
  lemma JudgedStepCloses(ps: Pass, c: Context, a: Answers)
    requires ps.idx < |ps.watched|
    ensures var w, j := ps.watched[ps.idx], Judged(ps, c, a);
            var verdict := VerdictAt(w, c);
            var q := Stepped(j.0, j.1, verdict, c, a);
            && j.0.closed <= q.closed
            && (forall x | x in Linger(w, verdict, c.now, a).1 ::
                  x in w.supersedes && x in Chain(w) && verdict in {Confirmed, Masked} && MayClose(w, verdict, c.now))
            && (forall x | x in q.closed[|j.0.closed|..] ::
                  && x in Chain(w) && MayClose(w, verdict, c.now)
                  && (verdict in {Gone, Confirmed, Masked} ==> x in w.supersedes))
  {
    var w, j := ps.watched[ps.idx], Judged(ps, c, a);
    var verdict := VerdictAt(w, c);
    JudgedMember(ps, c, a);
    JudgedClock(ps, c, a);
    StepCloses(j.0, j.1, verdict, c, a);
    assert MayClose(w, Gone, c.now);
    hide Judged, Stepped, Linger, VerdictAt, MayClose;
    var v := j.0.watched[ps.idx];
    if j.1 in {Repair, Abandon} { assert Chain(v) == Chain(w); }
  }

  /** A look closes only members of the chain looked at, only when due and its clock has run out,
      and never the member itself while it is up or gone. */
  lemma LookCloses(ps: Pass, c: Context, a: Answers)
    requires ps.idx < |ps.watched|
    ensures var q, w := Look(ps, c, a), ps.watched[ps.idx];
            && ps.closed <= q.closed
            && forall x | x in q.closed[|ps.closed|..] ::
                 && x in Chain(w) && w.notBefore <= c.now && MayClose(w, VerdictAt(w, c), c.now)
                 && (VerdictAt(w, c) in {Gone, Confirmed, Masked} ==> x in w.supersedes)
  {
    var w, at := ps.watched[ps.idx], At(ps, a);
    if w.notBefore <= c.now {
      var verdict, j := VerdictAt(w, c), Judged(at, c, a);
      var q, shut := Stepped(j.0, j.1, verdict, c, a), Linger(w, verdict, c.now, a).1;
      JudgedMember(at, c, a);
      JudgedStepCloses(at, c, a);
      hide Judged, Stepped, Linger, VerdictAt, MayClose, Chain;
      Suffix(ps.closed, shut, j.0.closed, q.closed);
    }
  }

  /** And it does close: with the member gone all it superseded goes at once, and with the member
      up, due, and its linger over. */
  lemma LookClosesAll(ps: Pass, c: Context, a: Answers)
    requires ps.idx < |ps.watched| && ps.watched[ps.idx].notBefore <= c.now
    ensures var w := ps.watched[ps.idx];
            VerdictAt(w, c) in {Gone, Confirmed, Masked} && MayClose(w, VerdictAt(w, c), c.now) ==>
              forall s | s in w.supersedes :: s in Look(ps, c, a).closed
  {
    var w, at := ps.watched[ps.idx], At(ps, a);
    var j := Judged(at, c, a);
    JudgedMember(at, c, a);
    StepCloses(j.0, j.1, VerdictAt(w, c), c, a);
    hide Stepped, VerdictAt;
  }
}
