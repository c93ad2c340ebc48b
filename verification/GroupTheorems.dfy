/** What holds of a group in every run: passes, re-adds and failing members in any order, from
    the members its connect left. */
module GroupTheorems {
  import opened SrtTypes
  import opened Watch
  import opened RepairPlan
  import opened CheckGroup
  import opened GroupLaws
  import opened PassSafety
  import opened GroupRuns

  ghost function Start(members: seq<Joined>, now: nat): Group {
    Group(Started(members, now), |members|, now)
  }

  ghost predicate GoodRun(members: seq<Joined>, now: nat, events: seq<Event>, tok: SocketId -> int) {
    GoodStart(members, tok) && PlausibleRun(Start(members, now), events, tok)
  }

  /** Watched, or superseded by a watched member. */
  ghost predicate TrackedIn(ps: Pass, x: SocketId) {
    exists e | e in Members(ps) :: x in Chain(e)
  }

  lemma {:induction false} SumFinds(ws: seq<Watched>, x: SocketId)
    requires Sum(ws, Holds(x)) > 0
    ensures exists e | e in ws :: x in Chain(e)
  {
    var n := |ws| - 1;
    if !(x in Chain(ws[n])) { SumFinds(ws[..n], x); }
  }

  lemma TrackedSum(ps: Pass, x: SocketId)
    requires ps.spawned == []
    ensures TrackedIn(ps, x) <==> Pot(ps, Holds(x)) > 0
  {
    assert Members(ps) == ps.watched;
    if Sum(ps.watched, Holds(x)) > 0 { SumFinds(ps.watched, x); }
    if e :| e in Members(ps) && x in Chain(e) { SumHasTerm(ps.watched, e, Holds(x)); }
  }

  lemma NoneTwice(ps: Pass, x: SocketId)
    requires ps.spawned == [] && Pot(ps, Holds(x)) <= 1
    ensures forall i, j | 0 <= i < j < |ps.watched| :: !(x in Chain(ps.watched[i]) && x in Chain(ps.watched[j]))
    ensures forall e | e in ps.watched :: multiset(Chain(e))[x] <= 1
  {
    forall i, j | 0 <= i < j < |ps.watched| ensures !(x in Chain(ps.watched[i]) && x in Chain(ps.watched[j])) {
      SumOfTwo(ps.watched, i, j, Holds(x));
    }
    forall e | e in ps.watched ensures multiset(Chain(e))[x] <= 1 {
      SumHasTerm(ps.watched, e, Holds(x));
    }
  }

  /** Conservation: every member ever spawned is in exactly one place: tracked, closed by the
      bridge, or released; it is closed at most once, and no two watched members share an id
      or a superseded member. */
  lemma EveryIdIsInOnePlace(members: seq<Joined>, now: nat, events: seq<Event>, tok: SocketId -> int, x: SocketId)
    requires GoodRun(members, now, events, tok)
    ensures var ps := Run(Start(members, now), events).pass;
            && (x in ps.born <==> TrackedIn(ps, x) || x in ps.closed || x in ps.released)
            && !(TrackedIn(ps, x) && x in ps.closed)
            && !(TrackedIn(ps, x) && x in ps.released)
            && !(x in ps.closed && x in ps.released)
            && multiset(ps.closed)[x] <= 1
            && (forall i, j | 0 <= i < j < |ps.watched| :: !(x in Chain(ps.watched[i]) && x in Chain(ps.watched[j])))
            && (forall e | e in ps.watched :: multiset(Chain(e))[x] <= 1)
  {
    StartHolds(members, now, tok);
    RunHolds(Start(members, now), events, tok);
    var ps := Run(Start(members, now), events).pass;
    TrackedSum(ps, x);
    assert Net(ps, x) == 0 && multiset(ps.born)[x] <= 1;
    NoneTwice(ps, x);
    hide Run, GoodRun, Chain, Pot, TrackedIn;
  }

  /** Repairs are bounded: no member is more than three replacements deep, the bridge spawns at
      most three members for each the application had spawned, and repairs at most four. */
  lemma RepairsAreBounded(members: seq<Joined>, now: nat, events: seq<Event>, tok: SocketId -> int)
    requires GoodRun(members, now, events, tok)
    ensures var g := Run(Start(members, now), events);
            && (forall w | w in g.pass.watched :: w.repairs <= MAX_STRANDED_REPAIRS)
            && |g.pass.born| - g.app <= MAX_STRANDED_REPAIRS * g.app
            && g.pass.repairs <= (MAX_STRANDED_REPAIRS + 1) * g.app
  {
    StartHolds(members, now, tok);
    RunHolds(Start(members, now), events, tok);
    var g := Run(Start(members, now), events);
    hide Run, GoodRun;
    assert Members(g.pass) == g.pass.watched;
  }

  lemma FlightOfInv(g: Group, tok: SocketId -> int)
    requires GroupInv(g, tok)
    ensures forall x, y | x in g.pass.flight && y in g.pass.flight && tok(x) == tok(y) ::
              x == y || exists w | w in g.pass.watched :: x in Chain(w) && y in Chain(w)
    ensures forall w | w in g.pass.watched :: forall s | s in Chain(w) :: tok(s) == w.endpoint.token
  {
    hide Accounted, FreshlySpawned, SpawnBudget, RepairBudget, Chain;
    assert Members(g.pass) == g.pass.watched;
    forall x, y | x in g.pass.flight && y in g.pass.flight && tok(x) == tok(y) && x != y
      ensures exists w | w in g.pass.watched :: x in Chain(w) && y in Chain(w)
    {
      assert Together(g.pass, x, y);
    }
  }

  /** One handshake per endpoint: members in flight for one token are always one watched member
      and those it will close, and a member and all it supersedes carry the same token. */
  lemma OneFlightPerToken(members: seq<Joined>, now: nat, events: seq<Event>, tok: SocketId -> int)
    requires GoodRun(members, now, events, tok)
    ensures var ps := Run(Start(members, now), events).pass;
            && (forall x, y | x in ps.flight && y in ps.flight && tok(x) == tok(y) ::
                  x == y || exists w | w in ps.watched :: x in Chain(w) && y in Chain(w))
            && (forall w | w in ps.watched :: forall s | s in Chain(w) :: tok(s) == w.endpoint.token)
  {
    StartHolds(members, now, tok);
    RunHolds(Start(members, now), events, tok);
    FlightOfInv(Run(Start(members, now), events), tok);
    hide Run, GroupInv, Chain;
  }

  // ── A superseded member is never forgotten ──

  ghost predicate OutOrClosed(ps: Pass, s: SocketId) {
    Superseded(ps, s) || s in ps.closed
  }

  lemma {:induction false} LooksFate(ps: Pass, c: Context, answers: seq<Answers>, s: SocketId)
    requires OutOrClosed(ps, s)
    ensures OutOrClosed(Looks(ps, c, answers), s)
  {
    if answers != [] {
      var n := |answers| - 1;
      LooksFate(ps, c, answers[..n], s);
      var at := Looks(ps, c, answers[..n]);
      if at.idx < |at.watched| {
        LookFate(at, c, answers[n]);
        hide Look;
      } else {
        assert Members(Look(at, c, answers[n])) == Members(at);
      }
    }
  }

  lemma EventFate(g: Group, e: Event, s: SocketId)
    requires g.pass.spawned == [] && OutOrClosed(g.pass, s)
    ensures OutOrClosed(Happen(g, e).pass, s)
  {
    var ps := g.pass;
    match e
    case Fail(ids) => assert Members(Happen(g, e).pass) == Members(ps);
    case Add(endpoint, a) =>
      assert forall m | m in Members(ps) :: m in Members(Added(ps, endpoint, a));
    case Check(c, live, answers) =>
      BeginMembers(ps, live);
      LooksFate(Begin(ps, live), c, answers, s);
      hide Looks, Begin;
      var q := Looks(Begin(ps, live), c, answers);
      assert Members(End(q)) == Members(q);
  }

  lemma RunPrefix(g: Group, events: seq<Event>, tok: SocketId -> int, k: nat)
    requires GroupInv(g, tok) && PlausibleRun(g, events, tok) && k <= |events|
    ensures PlausibleRun(g, events[..k], tok)
    ensures Run(g, events[..k]).pass.spawned == []
  {
    hide PlausibleRun, Run;
    PlausiblePrefix(g, events, tok, k);
    RunHolds(g, events[..k], tok);
  }

  /** Superseded once, superseded until closed: whatever happens after event `k`, a member
      superseded then is still superseded, or the bridge has closed it. */
  lemma {:induction false} SupersededUntilClosed(members: seq<Joined>, now: nat, events: seq<Event>, k: nat,
                                                 tok: SocketId -> int, s: SocketId)
    requires GoodRun(members, now, events, tok) && k <= |events|
    requires Superseded(Run(Start(members, now), events[..k]).pass, s)
    ensures OutOrClosed(Run(Start(members, now), events).pass, s)
  {
    hide PlausibleRun, GroupInv, Happen, Superseded;
    if k == |events| {
      assert events[..k] == events;
    } else {
      var n := |events| - 1;
      StartHolds(members, now, tok);
      RunPrefix(Start(members, now), events, tok, n);
      assert events[..n][..k] == events[..k];
      SupersededUntilClosed(members, now, events[..n], k, tok, s);
      EventFate(Run(Start(members, now), events[..n]), events[n], s);
    }
  }
}
