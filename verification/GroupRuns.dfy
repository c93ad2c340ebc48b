/** Runs of a group: passes, application re-adds and members failing, in any order. */
module GroupRuns {
  import opened SrtTypes
  import opened Watch
  import opened Journal
  import opened RepairPlan
  import opened CheckGroup
  import opened GroupLaws
  import opened PassSafety
  import opened PassTheorems

  datatype Event =
    | Fail(ids: set<SocketId>)
    | Add(endpoint: Endpoint, add: AddAnswers)
    | Check(c: Context, live: Sockets, answers: seq<Answers>)

  /** The group, how many members were spawned for the application, and the time of the last
      event that has one. */
  datatype Group = Group(pass: Pass, app: nat, now: nat)

  function Happen(g: Group, e: Event): Group {
    match e
    case Fail(ids) => g.(pass := g.pass.(flight := g.pass.flight - ids))
    case Add(endpoint, a) =>
      var q := Added(g.pass, endpoint, a);
      Group(q, g.app + |q.born| - |g.pass.born|, a.now)
    case Check(c, live, answers) => Group(CheckPass(g.pass, c, live, answers), g.app, c.now)
  }

  function Run(g: Group, events: seq<Event>): Group {
    if events == [] then g else Happen(Run(g, events[..|events| - 1]), events[|events| - 1])
  }

  /** What an event may rely on: time does not go back, and see `Faithful`. */
  ghost predicate Plausible(g: Group, e: Event, tok: SocketId -> int) {
    match e
    case Fail(_) => true
    case Add(endpoint, a) =>
      && g.now <= a.now
      && (forall r | r in a.rows :: r.token == tok(r.id))
      && (a.connect.Some? ==> a.connect.value !in g.pass.born && tok(a.connect.value) == endpoint.token)
      && (forall x | x in g.pass.flight ::
            exists r | r in a.rows :: r.id == x && InFlight(r.member, SockState(a.live, x)))
    case Check(c, live, answers) =>
      g.now <= c.now && |answers| == |g.pass.watched| && FaithfulPass(Begin(g.pass, live), c, answers, tok)
  }

  ghost predicate PlausibleRun(g: Group, events: seq<Event>, tok: SocketId -> int) {
    forall k | 0 <= k < |events| :: Plausible(Run(g, events[..k]), events[k], tok)
  }

  // ── Repair budgets ──

  /** What is left of a member's budget of `cap` moves. */
  ghost function Left(cap: nat): Watched -> nat {
    (w: Watched) => if w.repairs <= cap then cap - w.repairs else 0
  }

  /** Spawns left to make, and repairs left to make, with those made. */
  ghost function SpawnBudget(ps: Pass): nat { |ps.born| + Pot(ps, Left(MAX_STRANDED_REPAIRS)) }

  ghost function RepairBudget(ps: Pass): nat { ps.repairs + Pot(ps, Left(MAX_STRANDED_REPAIRS + 1)) }

  lemma SumSame(ws: seq<Watched>, vs: seq<Watched>, f: Watched -> nat)
    requires |ws| == |vs| && forall i | 0 <= i < |ws| :: f(ws[i]) == f(vs[i])
    ensures Sum(ws, f) == Sum(vs, f)
  {
  }

  lemma RepairSpends(ps: Pass, w: Watched, plan: Plan, c: Context, a: Answers, cap: nat)
    requires plan != Wait && w.repairs < cap
    ensures var q := Repaired(ps, w, plan, c, a);
            var spawns := if plan in {CloseThenSpawn, SpawnThenClose} && a.connect.Some? then 1 else 0;
            && |q.born| == |ps.born| + spawns
            && q.repairs <= ps.repairs + 1
            && Pot(q, Left(cap)) == Pot(ps, Left(cap)) + spawns * (cap - w.repairs - 1)
  {
    var q := Repaired(ps, w, plan, c, a);
    match plan
    case CloseNow =>
    case JoinSibling(_) =>
    case HandToSibling(other) =>
      SumSame(ps.watched, q.watched, Left(cap));
      SumSame(ps.spawned, q.spawned, Left(cap));
    case CloseThenSpawn =>
      if a.connect.Some? {
        SpawnPot(ps, Replacement(w, a.connect.value, [], c.now, a),
                 Begins(a.connect.value, c.now, a.conntimeo, Chain(w)), Left(cap));
      }
    case SpawnThenClose =>
      if a.connect.Some? {
        SpawnPot(ps, Replacement(w, a.connect.value, Chain(w), c.now, a),
                 Begins(a.connect.value, c.now, a.conntimeo, Chain(w)), Left(cap));
      }
  }

  lemma SteppedSpends(ps: Pass, step: Step, verdict: Verdict, c: Context, a: Answers, tok: SocketId -> int)
    requires Ready(ps, c, a, tok) && PassInv(ps, c.now, tok)
    ensures SpawnBudget(Stepped(ps, step, verdict, c, a)) <= SpawnBudget(ps)
    ensures RepairBudget(Stepped(ps, step, verdict, c, a)) <= RepairBudget(ps)
  {
    var w, q := ps.watched[ps.idx], Stepped(ps, step, verdict, c, a);
    var f3, f4 := Left(MAX_STRANDED_REPAIRS), Left(MAX_STRANDED_REPAIRS + 1);
    TakePot(ps, f3);
    TakePot(ps, f4);
    assert w in Members(ps);
    if step == Repair && PlanAt(ps, verdict, c, a) != Wait {
      PlanToken(ps, verdict, c, a, tok);
      var plan := PlanAt(ps, verdict, c, a);
      RepairSpends(Take(ps), w, plan, c, a, MAX_STRANDED_REPAIRS + 1);
      if w.repairs < MAX_STRANDED_REPAIRS {
        RepairSpends(Take(ps), w, plan, c, a, MAX_STRANDED_REPAIRS);
      } else {
        GiveUpSpends(Take(ps), w, plan, c, a);
      }
      hide PlanRepair, Repaired, PassInv, Pot;
    } else {
      hide PlanRepair, PassInv;
      if step.Recheck? {
        PutPot(ps, w.(notBefore := step.at), f3);
        PutPot(ps, w.(notBefore := step.at), f4);
      }
    }
  }

  lemma GiveUpSpends(ps: Pass, w: Watched, plan: Plan, c: Context, a: Answers)
    requires plan !in {Wait, CloseThenSpawn, SpawnThenClose}
    ensures SpawnBudget(Repaired(ps, w, plan, c, a)) == SpawnBudget(ps)
  {
    var q := Repaired(ps, w, plan, c, a);
    if plan.HandToSibling? {
      SumSame(ps.watched, q.watched, Left(MAX_STRANDED_REPAIRS));
      SumSame(ps.spawned, q.spawned, Left(MAX_STRANDED_REPAIRS));
    }
  }

  lemma LookSpends(ps: Pass, c: Context, a: Answers, tok: SocketId -> int)
    requires PassInv(ps, c.now, tok) && Faithful(ps, c, a, tok)
    ensures SpawnBudget(Look(ps, c, a)) <= SpawnBudget(ps)
    ensures RepairBudget(Look(ps, c, a)) <= RepairBudget(ps)
  {
    if ps.idx < |ps.watched| && ps.watched[ps.idx].notBefore <= c.now {
      var at := At(ps, a);
      var w, j := ps.watched[ps.idx], Judged(at, c, a);
      JudgedMember(at, c, a);
      JudgedKeeps(ps, c, a, tok);
      assert Ready(j.0, c, a, tok);
      PutPot(CloseIds(at, Linger(w, VerdictAt(w, c), c.now, a).1), j.0.watched[ps.idx], Left(MAX_STRANDED_REPAIRS));
      PutPot(CloseIds(at, Linger(w, VerdictAt(w, c), c.now, a).1), j.0.watched[ps.idx], Left(MAX_STRANDED_REPAIRS + 1));
      SteppedSpends(j.0, j.1, VerdictAt(w, c), c, a, tok);
      hide Judged, Stepped, Linger, VerdictAt, PassInv;
    }
  }

  lemma {:induction false} LooksSpend(ps: Pass, c: Context, answers: seq<Answers>, tok: SocketId -> int)
    requires PassInv(ps, c.now, tok) && FaithfulPass(ps, c, answers, tok)
    ensures SpawnBudget(Looks(ps, c, answers)) <= SpawnBudget(ps)
    ensures RepairBudget(Looks(ps, c, answers)) <= RepairBudget(ps)
  {
    hide Look, PassInv, SpawnBudget, RepairBudget, Faithful, FaithfulPass;
    if answers != [] {
      var n := |answers| - 1;
      FaithfulPrefix(ps, c, answers, tok, n);
      LooksSpend(ps, c, answers[..n], tok);
      LooksKeep(ps, c, answers[..n], tok);
      LookSpends(Looks(ps, c, answers[..n]), c, answers[n], tok);
    }
  }

  // ── The invariant of a run ──

  ghost predicate GroupInv(g: Group, tok: SocketId -> int) {
    && g.pass.spawned == [] && g.pass.idx == 0
    && PassInv(g.pass, 0, tok)
    && SpawnBudget(g.pass) <= (MAX_STRANDED_REPAIRS + 1) * g.app
    && RepairBudget(g.pass) <= (MAX_STRANDED_REPAIRS + 1) * g.app
  }

  lemma BeginSums(ps: Pass, live: Sockets, f: Watched -> nat)
    requires ps.spawned == []
    requires forall w: Watched, l: SocketStatus :: f(w.(live := l)) == f(w)
    ensures Pot(Begin(ps, live), f) == Pot(ps, f)
  {
    SumSame(ps.watched, Begin(ps, live).watched, f);
  }

  lemma BeginMembers(ps: Pass, live: Sockets)
    requires ps.spawned == []
    ensures var q := Begin(ps, live);
            && (forall e | e in Members(q) :: exists f | f in Members(ps) :: SameMember(e, f) && SameClocks(e, f))
            && (forall s | Superseded(ps, s) :: Superseded(q, s))
            && StayTogether(ps, q)
  {
    var q := Begin(ps, live);
    forall e | e in Members(q) ensures exists f | f in Members(ps) :: SameMember(e, f) && SameClocks(e, f) {
      var i :| 0 <= i < |q.watched| && q.watched[i] == e;
      assert ps.watched[i] in Members(ps) && SameMember(e, ps.watched[i]);
    }
    forall x, y | Together(ps, x, y) ensures Together(q, x, y) {
      var e :| e in Members(ps) && x in Chain(e) && y in Chain(e);
      var i :| 0 <= i < |ps.watched| && ps.watched[i] == e;
      assert q.watched[i] in Members(q) && Chain(q.watched[i]) == Chain(e);
    }
    forall s | Superseded(ps, s) ensures Superseded(q, s) {
      var e :| e in Members(ps) && s in e.supersedes;
      var i :| 0 <= i < |ps.watched| && ps.watched[i] == e;
      assert q.watched[i] in Members(q);
    }
  }

  lemma BeginKeeps(ps: Pass, live: Sockets, now: nat, tok: SocketId -> int)
    requires ps.spawned == [] && PassInv(ps, 0, tok)
    ensures var q := Begin(ps, live);
            && PassInv(q, now, tok)
            && SpawnBudget(q) == SpawnBudget(ps) && RepairBudget(q) == RepairBudget(ps)
  {
    var q := Begin(ps, live);
    BeginMembers(ps, live);
    BeginNets(ps, live);
    assert PassInv(ps, now, tok);
    hide PassInv, Members, Superseded, Together, Net, Pot;
    BeginSums(ps, live, Left(MAX_STRANDED_REPAIRS));
    BeginSums(ps, live, Left(MAX_STRANDED_REPAIRS + 1));
    ShrunkKeeps(ps, q, now, tok);
  }

  lemma BeginNets(ps: Pass, live: Sockets)
    requires ps.spawned == [] && Accounted(ps)
    ensures forall x :: Net(Begin(ps, live), x) == 0
  {
    forall x ensures Net(Begin(ps, live), x) == 0 {
      BeginSums(ps, live, Holds(x));
      assert Net(ps, x) == 0;
    }
  }

  lemma EndKeeps(ps: Pass, now: nat, tok: SocketId -> int)
    requires PassInv(ps, now, tok)
    ensures PassInv(End(ps), 0, tok)
    ensures SpawnBudget(End(ps)) == SpawnBudget(ps) && RepairBudget(End(ps)) == RepairBudget(ps)
  {
    var q := End(ps);
    assert Members(q) == Members(ps);
    forall x ensures Net(q, x) == 0 {
      EndPot(ps, Holds(x));
      assert Net(ps, x) == 0;
    }
    EndPot(ps, Left(MAX_STRANDED_REPAIRS));
    EndPot(ps, Left(MAX_STRANDED_REPAIRS + 1));
    assert forall x, y :: Together(q, x, y) <==> Together(ps, x, y);
    hide Members, Together, Pot, Net;
  }

  lemma EndPot(ps: Pass, f: Watched -> nat)
    ensures Pot(End(ps), f) == Pot(ps, f)
  {
    SumConcat(ps.watched, ps.spawned, f);
  }

  lemma CheckKeeps(g: Group, c: Context, live: Sockets, answers: seq<Answers>, tok: SocketId -> int)
    requires GroupInv(g, tok) && Plausible(g, Check(c, live, answers), tok)
    ensures GroupInv(Happen(g, Check(c, live, answers)), tok)
  {
    BeginKeeps(g.pass, live, c.now, tok);
    var start := Begin(g.pass, live);
    LooksKeep(start, c, answers, tok);
    LooksSpend(start, c, answers, tok);
    EndKeeps(Looks(start, c, answers), c.now, tok);
    hide PassInv, Looks, SpawnBudget, RepairBudget, Begin, FaithfulPass;
  }

  /** One member more, its id never seen before and its token not in flight, keeps the account. */
  lemma AddKeeps(g: Group, endpoint: Endpoint, a: AddAnswers, tok: SocketId -> int)
    requires GroupInv(g, tok) && Plausible(g, Add(endpoint, a), tok)
    ensures GroupInv(Happen(g, Add(endpoint, a)), tok)
  {
    hide PassInv, SpawnBudget, RepairBudget;
    var ps, q := g.pass, Added(g.pass, endpoint, a);
    if q != ps {
      var e := Spawned(a.connect.value, endpoint, a.now, a.conntimeo);
      AddAlone(ps, endpoint, a, tok);
      assert q == Appended(ps, e, Begins(e.id, a.now, a.conntimeo, []));
      AppendKeeps(ps, e, Begins(e.id, a.now, a.conntimeo, []), tok);
    }
  }

  ghost function Appended(ps: Pass, e: Watched, n: Note): Pass {
    ps.(watched := ps.watched + [e], born := ps.born + [e.id], flight := ps.flight + {e.id}, log := ps.log + [n])
  }

  lemma AppendKeeps(ps: Pass, e: Watched, n: Note, tok: SocketId -> int)
    requires ps.spawned == [] && PassInv(ps, 0, tok)
    requires e.repairs == 0 && !e.forced && e.supersedes == []
    requires e.id !in ps.born && tok(e.id) == e.endpoint.token
    requires forall x | x in ps.flight :: tok(x) != e.endpoint.token
    ensures var q := Appended(ps, e, n);
            && PassInv(q, 0, tok)
            && SpawnBudget(q) == SpawnBudget(ps) + MAX_STRANDED_REPAIRS + 1
            && RepairBudget(q) == RepairBudget(ps) + MAX_STRANDED_REPAIRS + 1
  {
    var q := Appended(ps, e, n);
    assert Members(q) == Members(ps) + [e];
    AppendNets(ps, e, n);
    AppendPot(ps, q, e, Left(MAX_STRANDED_REPAIRS));
    AppendPot(ps, q, e, Left(MAX_STRANDED_REPAIRS + 1));
    AppendFlight(ps, e, n, tok);
    hide Pot, Net, OneFlight, Appended;
    assert q.born == ps.born + [e.id] && q.spawned == [];
  }

  lemma AppendFlight(ps: Pass, e: Watched, n: Note, tok: SocketId -> int)
    requires Accounted(ps) && OneFlight(ps, tok)
    requires forall x | x in ps.flight :: x in ps.born && x !in ps.closed && tok(x) != e.endpoint.token
    requires e.id !in ps.born && tok(e.id) == e.endpoint.token && ps.spawned == []
    ensures var q := Appended(ps, e, n);
            OneFlight(q, tok) && forall x | x in q.flight :: x in q.born && x !in q.closed
  {
    var q := Appended(ps, e, n);
    if e.id in ps.closed { ClosedWasBorn(ps, e.id); }
    forall x, y | Together(ps, x, y) ensures Together(q, x, y) {
      var m :| m in Members(ps) && x in Chain(m) && y in Chain(m);
      assert m in Members(q);
    }
    hide Together, Net;
  }

  lemma AppendNets(ps: Pass, e: Watched, n: Note)
    requires e.supersedes == []
    ensures forall x :: Net(Appended(ps, e, n), x) == Net(ps, x)
  {
    forall x ensures Net(Appended(ps, e, n), x) == Net(ps, x) {
      AppendPot(ps, Appended(ps, e, n), e, Holds(x));
    }
  }

  lemma AppendPot(ps: Pass, q: Pass, e: Watched, f: Watched -> nat)
    requires q.watched == ps.watched + [e] && q.spawned == ps.spawned
    ensures Pot(q, f) == Pot(ps, f) + f(e)
  {
    SumConcat(ps.watched, [e], f);
    assert [e][..0] == [];
  }

  lemma AddAlone(ps: Pass, endpoint: Endpoint, a: AddAnswers, tok: SocketId -> int)
    requires Added(ps, endpoint, a) != ps
    requires forall r | r in a.rows :: r.token == tok(r.id)
    requires forall x | x in ps.flight ::
               exists r | r in a.rows :: r.id == x && InFlight(r.member, SockState(a.live, x))
    ensures forall x | x in ps.flight :: tok(x) != endpoint.token
  {
    forall x | x in ps.flight ensures tok(x) != endpoint.token {
      var r :| r in a.rows && r.id == x && InFlight(r.member, SockState(a.live, x));
      assert !FlightRow(r, endpoint.token, [], a.live);
    }
  }

  /** The members a group connect may leave: distinct ids, distinct tokens, as libsrt stores. */
  ghost predicate GoodStart(members: seq<Joined>, tok: SocketId -> int) {
    && (forall i, j | 0 <= i < j < |members| ::
          members[i].id != members[j].id && members[i].endpoint.token != members[j].endpoint.token)
    && (forall i | 0 <= i < |members| :: tok(members[i].id) == members[i].endpoint.token)
  }

  lemma {:induction false} StartSums(members: seq<Joined>, now: nat)
    ensures forall x :: Sum(WatchAll(members, now), Holds(x)) == multiset(Started(members, now).born)[x]
    ensures forall cap: nat :: Sum(WatchAll(members, now), Left(cap)) == cap * |members|
  {
    if members != [] {
      var init := members[..|members| - 1];
      StartSums(init, now);
      assert WatchAll(members, now)[..|members| - 1] == WatchAll(init, now);
      assert Started(members, now).born == Started(init, now).born + [members[|members| - 1].id];
    }
  }

  lemma StartFlight(members: seq<Joined>, now: nat, tok: SocketId -> int)
    requires GoodStart(members, tok)
    ensures OneFlight(Started(members, now), tok)
    ensures forall x :: multiset(Started(members, now).born)[x] <= 1
  {
    var ps := Started(members, now);
    NoRepeats(ps.born);
    forall x, y | x in ps.flight && y in ps.flight && x != y ensures tok(x) != tok(y) {
      var i :| 0 <= i < |ps.born| && ps.born[i] == x;
      var j :| 0 <= j < |ps.born| && ps.born[j] == y;
      assert members[i].id == x && members[j].id == y;
    }
  }

  lemma StartHolds(members: seq<Joined>, now: nat, tok: SocketId -> int)
    requires GoodStart(members, tok)
    ensures GroupInv(Group(Started(members, now), |members|, now), tok)
  {
    var ps := Started(members, now);
    StartSums(members, now);
    StartFlight(members, now, tok);
    StartMembers(members, now, tok);
    hide OneFlight, TokensOk, Holds, Left;
    forall x ensures Net(ps, x) == 0 {
      assert Sum(ps.watched, Holds(x)) == multiset(ps.born)[x];
    }
  }

  lemma StartMembers(members: seq<Joined>, now: nat, tok: SocketId -> int)
    requires GoodStart(members, tok)
    ensures TokensOk(Members(Started(members, now)), tok)
    ensures forall e | e in Members(Started(members, now)) :: e.repairs == 0 && !e.forced
  {
    assert forall e | e in Members(Started(members, now)) ::
      exists i | 0 <= i < |members| :: e == Spawned(members[i].id, members[i].endpoint, now, members[i].conntimeo);
  }

  lemma {:induction false} NoRepeats(s: seq<SocketId>)
    requires forall i, j | 0 <= i < j < |s| :: s[i] != s[j]
    ensures forall x :: multiset(s)[x] <= 1
  {
    if s != [] {
      var n := |s| - 1;
      assert s == s[..n] + [s[n]];
      NoRepeats(s[..n]);
    }
  }

  lemma PlausiblePrefix(g: Group, events: seq<Event>, tok: SocketId -> int, k: nat)
    requires PlausibleRun(g, events, tok) && k <= |events|
    ensures PlausibleRun(g, events[..k], tok)
    ensures k < |events| ==> Plausible(Run(g, events[..k]), events[k], tok)
  {
    hide Plausible, Run;
    assert forall i | 0 <= i < k :: events[..k][..i] == events[..i] && events[..k][i] == events[i];
  }

  lemma HappenKeeps(g: Group, e: Event, tok: SocketId -> int)
    requires GroupInv(g, tok) && Plausible(g, e, tok)
    ensures GroupInv(Happen(g, e), tok)
  {
    match e
    case Fail(ids) => SameButFlight(g.pass, Happen(g, e).pass, 0, tok);
    case Add(endpoint, a) => AddKeeps(g, endpoint, a, tok);
    case Check(c, live, answers) => CheckKeeps(g, c, live, answers, tok);
    hide PassInv, CheckPass, Added;
  }

  /** Every reachable state of every run keeps the invariant. */
  lemma {:induction false} RunHolds(g: Group, events: seq<Event>, tok: SocketId -> int)
    requires GroupInv(g, tok) && PlausibleRun(g, events, tok)
    ensures GroupInv(Run(g, events), tok)
  {
    hide GroupInv, Happen, Plausible, PlausibleRun;
    if events != [] {
      var n := |events| - 1;
      PlausiblePrefix(g, events, tok, n);
      RunHolds(g, events[..n], tok);
      HappenKeeps(Run(g, events[..n]), events[n], tok);
    }
  }
}
