/** No member is left stranded and forgotten: what was read last of every member released. */
module Released {
  import opened SrtTypes
  import opened Watch
  import opened Journal
  import opened RepairPlan
  import opened CheckGroup
  import opened GroupLaws
  import opened PassSafety
  import opened PassTheorems
  import opened Clocks
  import opened GroupRuns
  import opened GroupTheorems
  import opened RunClocks

  /** The last reading of `x` found it up, or gone. */
  ghost predicate LastReadSettled(log: seq<Note>, x: SocketId) {
    exists i: nat ::
      && ReadAt(log, i, x) && log[i].verdict in {Gone, Confirmed}
      && forall j: nat | i < j :: !ReadAt(log, j, x)
  }

  ghost predicate AllSettled(ps: Pass) {
    forall x | x in ps.released :: LastReadSettled(ps.log, x)
  }

  lemma SettledStays(log: seq<Note>, more: seq<Note>, x: SocketId)
    requires LastReadSettled(log, x) && Quiet(more, x)
    ensures LastReadSettled(log + more, x)
  {
    var all := log + more;
    var i: nat :| && ReadAt(log, i, x) && log[i].verdict in {Gone, Confirmed}
                  && forall j: nat | i < j :: !ReadAt(log, j, x);
    assert ReadAt(all, i, x);
    forall j: nat | i < j ensures !ReadAt(all, j, x) {
      if |log| <= j < |all| { assert all[j] in more; }
      if j < |log| { assert all[j] == log[j] && !ReadAt(log, j, x); }
    }
  }

  lemma SettledNow(log: seq<Note>, n: Note, more: seq<Note>)
    requires n.Reads? && n.verdict in {Gone, Confirmed} && Unread(more)
    ensures LastReadSettled(log + [n] + more, n.id)
  {
    var all := log + [n] + more;
    assert ReadAt(all, |log|, n.id);
    forall j: nat | |log| < j ensures !ReadAt(all, j, n.id) {
      if j < |all| { assert all[j] in more; }
    }
  }

  /** A look reads the member it looks at, if it is due, and no other. */
  lemma LookReadsOnce(ps: Pass, c: Context, a: Answers) returns (more: seq<Note>)
    ensures Unread(more)
    ensures Look(ps, c, a).log == ps.log + (if Due(ps, c) then [Judging(ps.watched[ps.idx], c, a)] else []) + more
  {
    more := [];
    if Due(ps, c) {
      hide Judged, Stepped, VerdictAt, Look, Judging, At, Unread;
      var w, j := ps.watched[ps.idx], Judged(At(ps, a), c, a);
      LookIsStep(ps, c, a);
      var ends := JudgedReadsOnce(ps, c, a);
      var steps := StepLog(j.0, j.1, VerdictAt(w, c), c, a);
      more := UnreadBoth(ps.log + [Judging(w, c, a)], ends, steps);
    }
  }

  lemma UnreadBoth(log: seq<Note>, ends: seq<Note>, steps: seq<Note>) returns (more: seq<Note>)
    requires Unread(ends) && Unread(steps)
    ensures Unread(more) && log + ends + steps == log + more
  {
    more := ends + steps;
    assert log + ends + steps == log + (ends + steps);
  }

  lemma JudgedReadsOnce(ps: Pass, c: Context, a: Answers) returns (ends: seq<Note>)
    requires ps.idx < |ps.watched|
    ensures Unread(ends) && Judged(At(ps, a), c, a).0.log == ps.log + [Judging(ps.watched[ps.idx], c, a)] + ends
  {
    var w := ps.watched[ps.idx];
    JudgedMember(At(ps, a), c, a);
    ends := EndsOf(Linger(w, VerdictAt(w, c), c.now, a).1);
    hide Judged, Linger, VerdictAt, Judging;
  }

  lemma LookSettlesAll(ps: Pass, c: Context, a: Answers, tok: SocketId -> int)
    requires PassInv(ps, c.now, tok) && AllSettled(ps)
    ensures AllSettled(Look(ps, c, a))
  {
    var q := Look(ps, c, a);
    var more := LookReadsOnce(ps, c, a);
    if ps.idx < |ps.watched| {
      var w := ps.watched[ps.idx];
      LookReleases(ps, c, a);
      NotDueReleases(ps, c, a);
      assert w in Members(ps) && w.id in Chain(w);
      TrackedIsOpen(ps, w, w.id);
      var read := if Due(ps, c) then [Judging(w, c, a)] else [];
      JudgingOf(w, c, a);
      hide Look, PassInv, Judging, VerdictAt, LastReadSettled, Chain;
      forall x | x in q.released ensures LastReadSettled(q.log, x) {
        if x in ps.released {
          SettledStays(ps.log, read, x);
          SettledStays(ps.log + read, more, x);
        } else {
          SettledNow(ps.log, Judging(w, c, a), more);
        }
      }
    } else {
      NoLookReleases(ps, c, a);
      hide Look, PassInv;
      forall x | x in q.released ensures LastReadSettled(q.log, x) { SettledStays(ps.log, [] + more, x); }
      assert ps.log + [] + more == ps.log + ([] + more);
    }
  }

  lemma JudgingOf(w: Watched, c: Context, a: Answers)
    ensures Judging(w, c, a).Reads? && Judging(w, c, a).id == w.id && Judging(w, c, a).verdict == VerdictAt(w, c)
  {
    hide VerdictAt;
  }

  lemma NotDueReleases(ps: Pass, c: Context, a: Answers)
    requires ps.idx < |ps.watched|
    ensures !Due(ps, c) ==> Look(ps, c, a).released == ps.released
  {
  }

  lemma NoLookReleases(ps: Pass, c: Context, a: Answers)
    requires ps.idx >= |ps.watched|
    ensures Look(ps, c, a).released == ps.released
  {
  }

  lemma {:induction false} LooksSettleAll(ps: Pass, c: Context, answers: seq<Answers>, tok: SocketId -> int)
    requires PassInv(ps, c.now, tok) && FaithfulPass(ps, c, answers, tok) && AllSettled(ps)
    ensures AllSettled(Looks(ps, c, answers))
  {
    hide PassInv, Look, Faithful, FaithfulPass, AllSettled;
    if answers != [] {
      var n := |answers| - 1;
      FaithfulPrefix(ps, c, answers, tok, n);
      LooksKeep(ps, c, answers[..n], tok);
      LooksSettleAll(ps, c, answers[..n], tok);
      LookSettlesAll(Looks(ps, c, answers[..n]), c, answers[n], tok);
    }
  }

  lemma EventSettlesAll(g: Group, e: Event, tok: SocketId -> int)
    requires GroupInv(g, tok) && Plausible(g, e, tok) && AllSettled(g.pass)
    ensures AllSettled(Happen(g, e).pass)
  {
    hide LastReadSettled;
    match e
    case Fail(_) =>
    case Add(endpoint, a) =>
      var q := Added(g.pass, endpoint, a);
      if q != g.pass {
        var n := Begins(a.connect.value, a.now, a.conntimeo, []);
        assert q.log == g.pass.log + [n];
        forall x | x in q.released ensures LastReadSettled(q.log, x) { SettledStays(g.pass.log, [n], x); }
      }
    case Check(c, live, answers) =>
      BeginKeeps(g.pass, live, c.now, tok);
      BeginLog(g.pass, live);
      assert Begin(g.pass, live).released == g.pass.released;
      assert AllSettled(Begin(g.pass, live));
      hide PassInv, Begin, Looks, SpawnBudget, RepairBudget, FaithfulPass;
      LooksSettleAll(Begin(g.pass, live), c, answers, tok);
  }

  lemma {:induction false} RunSettlesAll(members: seq<Joined>, now: nat, events: seq<Event>, tok: SocketId -> int)
    requires GoodRun(members, now, events, tok)
    ensures AllSettled(Run(Start(members, now), events).pass)
  {
    hide GroupInv, Happen, Plausible, PlausibleRun;
    if events != [] {
      var n := |events| - 1;
      PlausiblePrefix(Start(members, now), events, tok, n);
      RunSettlesAll(members, now, events[..n], tok);
      StartHolds(members, now, tok);
      RunHolds(Start(members, now), events[..n], tok);
      EventSettlesAll(Run(Start(members, now), events[..n]), events[n], tok);
    }
  }

  /** In every run the last reading of every released member found it up or gone; so a member whose
      last readings strand is still tracked, or closed. */
  lemma NoneForgotten(members: seq<Joined>, now: nat, events: seq<Event>, tok: SocketId -> int, x: SocketId)
    requires GoodRun(members, now, events, tok)
    ensures var ps := Run(Start(members, now), events).pass;
            && (x in ps.released ==> LastReadSettled(ps.log, x))
            && (x in ps.born && Since(ps.log, x).Some? ==> TrackedIn(ps, x) || x in ps.closed)
  {
    var ps := Run(Start(members, now), events).pass;
    RunSettlesAll(members, now, events, tok);
    EveryIdIsInOnePlace(members, now, events, tok, x);
    hide Run, GoodRun, TrackedIn;
    if LastReadSettled(ps.log, x) { SettledIsNotSince(ps.log, x); }
    hide LastReadSettled, Since;
  }

  lemma SettledIsNotSince(log: seq<Note>, x: SocketId)
    requires LastReadSettled(log, x)
    ensures Since(log, x) == None
  {
    ClockIsStartOfRun(log, x);
    hide Since;
    var i: nat :| && ReadAt(log, i, x) && log[i].verdict in {Gone, Confirmed}
                  && forall j: nat | i < j :: !ReadAt(log, j, x);
    forall k: nat ensures !StrandsFrom(log, k, x) {
      if k <= i { assert !Strands(log[i].verdict); }
    }
  }
}
