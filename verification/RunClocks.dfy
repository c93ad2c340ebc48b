/** The grace, the connect deadline and the linger, over every run of a group: what a look repairs
    and what it closes, told from the readings the journal has. */
module RunClocks {
  import opened SrtTypes
  import opened Watch
  import opened Journal
  import opened RepairPlan
  import opened CheckGroup
  import opened GroupLaws
  import opened PassSafety
  import opened Lingering
  import opened Clocks
  import opened PassTheorems
  import opened GroupRuns
  import opened GroupTheorems
  import PeerRule

  ghost predicate ClockInv(g: Group) {
    Clocked(g.pass) && Timely(g.pass.log, g.now)
  }

  // ── Passes, re-adds and starts ──

  lemma {:induction false} LooksTimely(ps: Pass, c: Context, answers: seq<Answers>)
    requires Timely(ps.log, c.now)
    ensures Timely(Looks(ps, c, answers).log, c.now)
  {
    hide Look, Timely;
    if answers != [] {
      var n := |answers| - 1;
      LooksTimely(ps, c, answers[..n]);
      var at := Looks(ps, c, answers[..n]);
      var more := LookLog(at, c, answers[n]);
      TimelyAppend(at.log, more, c.now, c.now);
    }
  }

  lemma BeginClocks(ps: Pass, live: Sockets)
    requires ps.spawned == [] && Clocked(ps)
    ensures Clocked(Begin(ps, live))
  {
    var q := Begin(ps, live);
    BeginMembers(ps, live);
    TakenAgrees(ps, q);
    forall e | e in Members(q) ensures Told(e, q.log) {
      var f :| f in Members(ps) && SameMember(e, f) && SameClocks(e, f);
      ToldOf(e, f, ps.log);
    }
  }

  lemma EndClocks(ps: Pass)
    requires Clocked(ps)
    ensures Clocked(End(ps))
  {
    assert Members(End(ps)) == Members(ps);
    TakenAgrees(ps, End(ps));
  }

  lemma AppendClocks(ps: Pass, e: Watched, n: Note)
    requires Clocked(ps) && n.Begins? && n.id == e.id && e.id !in ps.born
    requires e == Spawned(e.id, e.endpoint, n.at, n.conntimeo) && ps.spawned == []
    ensures Clocked(Appended(ps, e, n))
  {
    var q := Appended(ps, e, n);
    assert n in [n];
    assert forall m | m in Members(q) :: m == e || m in Members(ps);
    forall m | m in Members(q) ensures (exists f | f in Members(ps) :: SameClocks(m, f)) || Fresh(m, [n]) {
      if m in Members(ps) { assert SameClocks(m, m); }
    }
    hide Told;
    DescendsTold(ps, q, [n]);
  }

  lemma StartFresh(members: seq<Joined>, now: nat, tok: SocketId -> int, i: nat)
    requires GoodStart(members, tok) && i < |members|
    ensures Fresh(Started(members, now).watched[i], Started(members, now).log)
  {
    var ps := Started(members, now);
    assert ps.log[i].id == members[i].id;
    forall n | n in ps.log && n.id == members[i].id ensures n == ps.log[i] {
      var j :| 0 <= j < |ps.log| && ps.log[j] == n;
    }
  }

  lemma StartAgrees(members: seq<Joined>, now: nat)
    ensures Agrees(Started(members, now)) && Unread(Started(members, now).log)
    ensures Timely(Started(members, now).log, now)
  {
    var ps := Started(members, now);
    forall n | n in ps.log ensures n.id in ps.born {
      var j :| 0 <= j < |ps.log| && ps.log[j] == n;
      assert ps.born[j] == n.id;
    }
  }

  lemma StartClocks(members: seq<Joined>, now: nat, tok: SocketId -> int)
    requires GoodStart(members, tok)
    ensures ClockInv(Start(members, now))
  {
    var ps := Started(members, now);
    StartAgrees(members, now);
    assert Members(ps) == ps.watched;
    assert [] + ps.log == ps.log;
    hide GoodStart, Started, Agrees, Unread, Timely, Fresh, Told;
    forall e | e in Members(ps) ensures Told(e, ps.log) {
      var i :| 0 <= i < |ps.watched| && ps.watched[i] == e;
      StartSize(members, now);
      StartFresh(members, now, tok, i);
      ToldFresh(e, [], ps.log);
    }
  }

  lemma StartSize(members: seq<Joined>, now: nat)
    ensures |Started(members, now).watched| == |members|
  {
  }

  lemma HappenClocks(g: Group, e: Event, tok: SocketId -> int)
    requires GroupInv(g, tok) && Plausible(g, e, tok) && ClockInv(g)
    ensures ClockInv(Happen(g, e))
  {
    match e
    case Fail(ids) =>
      assert Members(Happen(g, e).pass) == Members(g.pass);
    case Add(endpoint, a) =>
      AddClocks(g, endpoint, a);
    case Check(c, live, answers) =>
      CheckClocks(g, c, live, answers, tok);
  }

  lemma Later(log: seq<Note>, was: nat, now: nat)
    requires Timely(log, was) && was <= now
    ensures Timely(log, now)
  {
  }

  lemma AddClocks(g: Group, endpoint: Endpoint, a: AddAnswers)
    requires g.pass.spawned == [] && ClockInv(g) && g.now <= a.now
    requires a.connect.Some? ==> a.connect.value !in g.pass.born
    ensures ClockInv(Happen(g, Add(endpoint, a)))
  {
    var q := Added(g.pass, endpoint, a);
    Later(g.pass.log, g.now, a.now);
    if q != g.pass {
      var e := Spawned(a.connect.value, endpoint, a.now, a.conntimeo);
      var n := Begins(e.id, a.now, a.conntimeo, []);
      assert q == Appended(g.pass, e, n);
      AppendClocks(g.pass, e, n);
      TimelyAppend(g.pass.log, [n], g.now, a.now);
    }
    hide Clocked, Timely;
  }

  lemma CheckClocks(g: Group, c: Context, live: Sockets, answers: seq<Answers>, tok: SocketId -> int)
    requires GroupInv(g, tok) && Plausible(g, Check(c, live, answers), tok) && ClockInv(g)
    ensures ClockInv(Happen(g, Check(c, live, answers)))
  {
    var start := Begin(g.pass, live);
    Later(g.pass.log, g.now, c.now);
    BeginKeeps(g.pass, live, c.now, tok);
    BeginClocks(g.pass, live);
    hide PassInv, Clocked, Timely, Begin, Looks, FaithfulPass, SpawnBudget, RepairBudget;
    assert start.log == g.pass.log by { BeginLog(g.pass, live); }
    LooksClocked(start, c, answers, tok);
    LooksTimely(start, c, answers);
    EndClocks(Looks(start, c, answers));
  }

  lemma BeginLog(ps: Pass, live: Sockets)
    ensures Begin(ps, live).log == ps.log
  {
  }

  /** In every reachable state every watched member's clocks are those its journal tells. */
  lemma {:induction false} ClocksHold(members: seq<Joined>, now: nat, events: seq<Event>, tok: SocketId -> int)
    requires GoodRun(members, now, events, tok)
    ensures ClockInv(Run(Start(members, now), events))
  {
    hide GroupInv, Happen, Plausible, PlausibleRun, ClockInv;
    if events == [] {
      StartClocks(members, now, tok);
    } else {
      var n := |events| - 1;
      PlausiblePrefix(Start(members, now), events, tok, n);
      ClocksHold(members, now, events[..n], tok);
      StartHolds(members, now, tok);
      RunHolds(Start(members, now), events[..n], tok);
      HappenClocks(Run(Start(members, now), events[..n]), events[n], tok);
    }
  }

  // ── Any look of any run ──

  /** Event `n` of a run is a pass, and `k` one of its looks, at a member that is due. */
  ghost predicate IsLook(members: seq<Joined>, now: nat, events: seq<Event>, n: nat, k: nat) {
    && n < |events| && events[n].Check? && k < |events[n].answers|
    && Due(LookOf(members, now, events, n, k), events[n].c)
  }

  ghost predicate Due(ps: Pass, c: Context) {
    ps.idx < |ps.watched| && ps.watched[ps.idx].notBefore <= c.now
  }

  /** The state just before look `k` of event `n`. */
  ghost function LookOf(members: seq<Joined>, now: nat, events: seq<Event>, n: nat, k: nat): Pass
    requires n < |events| && events[n].Check? && k < |events[n].answers|
  {
    Before(Begin(Run(Start(members, now), events[..n]).pass, events[n].live), events[n].c, events[n].answers, k)
  }

  lemma LookHolds(members: seq<Joined>, now: nat, events: seq<Event>, tok: SocketId -> int, n: nat, k: nat)
    requires GoodRun(members, now, events, tok) && n < |events| && events[n].Check? && k < |events[n].answers|
    ensures var at, c := LookOf(members, now, events, n, k), events[n].c;
            && PassInv(at, c.now, tok) && Faithful(at, c, events[n].answers[k], tok)
            && Clocked(at) && Timely(at.log, c.now)
  {
    var e := events[n];
    PlausiblePrefix(Start(members, now), events, tok, n);
    StartHolds(members, now, tok);
    RunHolds(Start(members, now), events[..n], tok);
    ClocksHold(members, now, events[..n], tok);
    var g := Run(Start(members, now), events[..n]);
    hide Run, Clocked, Timely, PassInv, Begin, Looks, SpawnBudget, RepairBudget, Faithful;
    PassHolds(g, e.c, e.live, e.answers, tok, k);
  }

  lemma PassHolds(g: Group, c: Context, live: Sockets, answers: seq<Answers>, tok: SocketId -> int, k: nat)
    requires GroupInv(g, tok) && ClockInv(g) && Plausible(g, Check(c, live, answers), tok) && k < |answers|
    ensures var at := Before(Begin(g.pass, live), c, answers, k);
            && PassInv(at, c.now, tok) && Faithful(at, c, answers[k], tok)
            && Clocked(at) && Timely(at.log, c.now)
  {
    var start := Begin(g.pass, live);
    BeginKeeps(g.pass, live, c.now, tok);
    BeginClocks(g.pass, live);
    Later(g.pass.log, g.now, c.now);
    BeginLog(g.pass, live);
    hide PassInv, Clocked, Timely, Begin, Looks, SpawnBudget, RepairBudget, Faithful, FaithfulPass;
    BeforeInv(start, c, answers, tok, k);
    FaithfulPrefix(start, c, answers, tok, k);
    LooksClocked(start, c, answers[..k], tok);
    LooksTimely(start, c, answers[..k]);
  }

  /** `x` is at or past its connect deadline: its timeout, and a second, after it began. */
  ghost predicate PastDeadline(log: seq<Note>, x: SocketId, now: nat) {
    exists due: nat :: DueBy(log, x, due) && now >= due
  }

  /** Over every run, a look repairs a member if and only if every reading of it for at least the
      last 500 ms, this one included, is stranding, or it still shakes hands, on a live socket,
      at or past its deadline. */
  lemma RepairNeedsGraceOrDeadline(members: seq<Joined>, now: nat, events: seq<Event>, tok: SocketId -> int,
                                   n: nat, k: nat)
    requires GoodRun(members, now, events, tok) && IsLook(members, now, events, n, k)
    ensures var at, c, a := LookOf(members, now, events, n, k), events[n].c, events[n].answers[k];
            var w := at.watched[at.idx];
            var log := at.log + [Judging(w, c, a)];
            PlanOf(at, c, a).Some? <==>
              || StrandedLong(log, w.id, c.now)
              || (VerdictAt(w, c) == Handshaking && PastDeadline(log, w.id, c.now) && !IsTerminal(w.live))
  {
    LookHolds(members, now, events, tok, n, k);
    var at, c, a := LookOf(members, now, events, n, k), events[n].c, events[n].answers[k];
    hide LookOf, GoodRun, PassInv, Faithful;
    LookRepairs(at, c, a);
  }

  lemma LookRepairs(at: Pass, c: Context, a: Answers)
    requires Due(at, c) && Clocked(at) && Timely(at.log, c.now)
    ensures var w := at.watched[at.idx];
            var log := at.log + [Judging(w, c, a)];
            PlanOf(at, c, a).Some? <==>
              || StrandedLong(log, w.id, c.now)
              || (VerdictAt(w, c) == Handshaking && PastDeadline(log, w.id, c.now) && !IsTerminal(w.live))
  {
    var w := at.watched[at.idx];
    var log := at.log + [Judging(w, c, a)];
    assert w in Members(at);
    TimelyAppend(at.log, [Judging(w, c, a)], c.now, c.now);
    GraceIsOver(log, w.id, c.now);
    assert log[..|log| - 1] == at.log;
    DeadlineTold(w, at.log, Judging(w, c, a), c.now);
    RepairStep(at, c, a);
    hide VerdictAt, Members, Judged, StrandedLong, PastDeadline, PlanRepair, Timely, LingerEnd;
  }

  lemma DeadlineTold(w: Watched, log: seq<Note>, n: Note, now: nat)
    requires Told(w, log) && n.Reads?
    ensures PastDeadline(log + [n], w.id, now) <==> now >= w.resolveBy
  {
    hide Since, LingerEnd;
    var b :| b in log && b.Begins? && b.id == w.id;
    assert b in log + [n];
    if now >= w.resolveBy { assert DueBy(log + [n], w.id, w.resolveBy); }
  }

  /** Over every run, a look closes only members of the chain it looks at; under a member that is
      up only once its linger has run out, and otherwise only when it has failed, has stranded
      for the grace, or is past its deadline. */
  lemma ClosesWhenDue(members: seq<Joined>, now: nat, events: seq<Event>, tok: SocketId -> int, n: nat, k: nat)
    requires GoodRun(members, now, events, tok)
    requires n < |events| && events[n].Check? && k < |events[n].answers|
    ensures var at, c, a := LookOf(members, now, events, n, k), events[n].c, events[n].answers[k];
            && at.closed <= Look(at, c, a).closed
            && forall x | x in Look(at, c, a).closed[|at.closed|..] ::
                 && Due(at, c)
                 && var w := at.watched[at.idx];
                    var log := at.log + [Judging(w, c, a)];
                    && x in Chain(w)
                    && match VerdictAt(w, c)
                       case Gone => x in w.supersedes
                       case Confirmed | Masked => x in w.supersedes && LingeredLong(log, w.id, c.now)
                       case Handshaking => PastDeadline(log, w.id, c.now)
                       case Stranded | BrokenLive => StrandedLong(log, w.id, c.now)
  {
    LookHolds(members, now, events, tok, n, k);
    var at, c, a := LookOf(members, now, events, n, k), events[n].c, events[n].answers[k];
    hide LookOf, GoodRun, PassInv, Faithful, Look, StrandedLong, PastDeadline, LingeredLong;
    if at.idx < |at.watched| {
      LookCloses(at, c, a);
      MayCloseTold(at, c, a);
      hide Judging;
    } else {
      assert Look(at, c, a).closed == at.closed by { NoLook(at, c, a); }
    }
  }

  lemma NoLook(ps: Pass, c: Context, a: Answers)
    requires ps.idx >= |ps.watched|
    ensures Look(ps, c, a).closed == ps.closed
  {
  }

  lemma MayCloseTold(at: Pass, c: Context, a: Answers)
    requires at.idx < |at.watched| && Clocked(at) && Timely(at.log, c.now)
    ensures var w := at.watched[at.idx];
            var log := at.log + [Judging(w, c, a)];
            MayClose(w, VerdictAt(w, c), c.now) ==>
              match VerdictAt(w, c)
              case Gone => true
              case Confirmed | Masked => LingeredLong(log, w.id, c.now)
              case Handshaking => PastDeadline(log, w.id, c.now)
              case Stranded | BrokenLive => StrandedLong(log, w.id, c.now)
  {
    var w := at.watched[at.idx];
    var r := Judging(w, c, a);
    var log := at.log + [r];
    assert w in Members(at);
    TimelyAppend(at.log, [r], c.now, c.now);
    GraceIsOver(log, w.id, c.now);
    LingerIsOver(log, w.id, c.now);
    DeadlineTold(w, at.log, r, c.now);
    assert log[..|log| - 1] == at.log;
    hide VerdictAt, Members, StrandedLong, PastDeadline, LingeredLong, Timely, LingerTime;
  }

  /** Over every run, a due look at an up member closes all it supersedes, or nothing: all of it
      exactly when both latencies read at its first up look, and a second, have passed. */
  lemma LingerRunsOut(members: seq<Joined>, now: nat, events: seq<Event>, tok: SocketId -> int, n: nat, k: nat)
    requires GoodRun(members, now, events, tok) && IsLook(members, now, events, n, k)
    ensures var at, c, a := LookOf(members, now, events, n, k), events[n].c, events[n].answers[k];
            var w := at.watched[at.idx];
            IsUp(VerdictAt(w, c)) && w.supersedes != [] ==>
              Look(at, c, a).closed == at.closed +
                if LingeredLong(at.log + [Judging(w, c, a)], w.id, c.now) then w.supersedes else []
  {
    LookHolds(members, now, events, tok, n, k);
    var at, c, a := LookOf(members, now, events, n, k), events[n].c, events[n].answers[k];
    hide LookOf, GoodRun, PassInv, Faithful;
    LookLingers(at, c, a);
  }

  lemma LookLingers(at: Pass, c: Context, a: Answers)
    requires Due(at, c) && Clocked(at)
    ensures var w := at.watched[at.idx];
            IsUp(VerdictAt(w, c)) && w.supersedes != [] ==>
              Look(at, c, a).closed == at.closed +
                if LingeredLong(at.log + [Judging(w, c, a)], w.id, c.now) then w.supersedes else []
  {
    var w := at.watched[at.idx];
    var r := Judging(w, c, a);
    var log := at.log + [r];
    assert w in Members(at);
    LingerIsOver(log, w.id, c.now);
    assert log[..|log| - 1] == at.log;
    UpCloses(at, c, a);
    hide VerdictAt, Members, LingeredLong, LingerTime, Since, Look, DueBy;
  }

  lemma UpCloses(at: Pass, c: Context, a: Answers)
    requires Due(at, c)
    ensures var w, verdict := at.watched[at.idx], VerdictAt(at.watched[at.idx], c);
            IsUp(verdict) ==> Look(at, c, a).closed == at.closed + Linger(w, verdict, c.now, a).1
  {
    var w := at.watched[at.idx];
    var j := Judged(At(at, a), c, a);
    JudgedMember(At(at, a), c, a);
    UpStep(At(at, a), c, a);
    StepCloses(j.0, j.1, VerdictAt(w, c), c, a);
    hide Judged, Stepped, Linger, VerdictAt;
  }

  lemma UpStep(ps: Pass, c: Context, a: Answers)
    requires ps.idx < |ps.watched|
    ensures var step := Judged(ps, c, a).1;
            IsUp(VerdictAt(ps.watched[ps.idx], c)) ==>
              step.Keep? || step.Recheck? || (step == Drop && Judged(ps, c, a).0.watched[ps.idx].supersedes == [])
  {
    hide VerdictAt;
  }

  /** Over every run, a repair that is due waits no longer than it must. Of the first `m` notes of
      the journal, take those that begin a member: once all their deadlines are past, it is put off
      only for a member begun since, or for one listed Broken on a connected socket; and a member
      that is so listed itself only for one begun since. */
  lemma WaitEndsByDeadlines(members: seq<Joined>, now: nat, events: seq<Event>, tok: SocketId -> int,
                            n: nat, k: nat, m: nat)
    requires GoodRun(members, now, events, tok) && IsLook(members, now, events, n, k)
    requires m <= |LookOf(members, now, events, n, k).log|
    ensures var at, c, a := LookOf(members, now, events, n, k), events[n].c, events[n].answers[k];
            var w := at.watched[at.idx];
            PlanOf(at, c, a) == Some(Wait) && AllPastDeadline(at.log[..m], c.now) ==>
              || BegunSince(at, m, Chain(w))
              || (VerdictAt(w, c) != BrokenLive && OtherBrokenLive(Members(at), c.rows, Chain(w), a.broken))
  {
    LookHolds(members, now, events, tok, n, k);
    var at, c, a := LookOf(members, now, events, n, k), events[n].c, events[n].answers[k];
    hide LookOf, GoodRun, PassInv, Faithful, PlanOf, AllPastDeadline, BegunSince;
    if PlanOf(at, c, a) == Some(Wait) { WaitReason(at, c, a, m); }
  }

  ghost predicate AllPastDeadline(log: seq<Note>, now: nat) {
    forall n | n in log && n.Begins? :: now >= n.at + ConnectTimeout(n.conntimeo) + HANDSHAKE_TTL_SLACK
  }

  /** A member outside `chain` begun after the first `m` notes. */
  ghost predicate BegunSince(ps: Pass, m: nat, chain: seq<SocketId>) {
    exists e, i | e in Members(ps) && m <= i < |ps.log| ::
      e.id !in chain && ps.log[i].Begins? && ps.log[i].id == e.id
  }

  lemma WaitReason(at: Pass, c: Context, a: Answers, m: nat)
    requires at.idx < |at.watched| && Clocked(at) && PlanOf(at, c, a) == Some(Wait) && m <= |at.log|
    ensures var w := at.watched[at.idx];
            AllPastDeadline(at.log[..m], c.now) ==>
              || BegunSince(at, m, Chain(w))
              || (VerdictAt(w, c) != BrokenLive && OtherBrokenLive(Members(at), c.rows, Chain(w), a.broken))
  {
    var w := at.watched[at.idx];
    PeerRule.PlanGuards(at, c, a);
    hide PlanOf, VerdictAt, Sibling, OtherAtPeer, OtherBrokenLive, Since, LingerEnd, DueBy;
    if AllPastDeadline(at.log[..m], c.now) && OtherHandshaking(Members(at), Chain(w), c.now) {
      var e :| e in Members(at) && e.id !in Chain(w) && InHandshake(e, c.now);
      var i := BegunLate(at.log, e.id, e.resolveBy, c.now, m);
      assert BegunSince(at, m, Chain(w));
    }
  }

  lemma BegunLate(log: seq<Note>, x: SocketId, due: nat, now: nat, m: nat) returns (i: nat)
    requires DueBy(log, x, due) && now < due && m <= |log| && AllPastDeadline(log[..m], now)
    ensures m <= i < |log| && log[i].Begins? && log[i].id == x
  {
    assert forall j | 0 <= j < m :: log[j] in log[..m];
    i :| i < |log| && log[i].Begins? && log[i].id == x;
    assert log[i] in log;
  }
}
