/** The invariant of a pass, and that every look keeps it when libsrt answers faithfully. */
module PassSafety {
  import opened SrtTypes
  import opened Watch
  import opened RepairPlan
  import opened CheckGroup
  import opened GroupLaws

  ghost function Members(ps: Pass): seq<Watched> { ps.watched + ps.spawned }

  ghost predicate Superseded(ps: Pass, s: SocketId) {
    exists e | e in Members(ps) :: s in e.supersedes
  }

  /** Every member, and all it supersedes, carries one token. */
  ghost predicate TokensOk(ms: seq<Watched>, tok: SocketId -> int) {
    forall e | e in ms :: forall s | s in Chain(e) :: tok(s) == e.endpoint.token
  }

  ghost predicate Together(ps: Pass, x: SocketId, y: SocketId) {
    exists e | e in Members(ps) :: x in Chain(e) && y in Chain(e)
  }

  /** All members in flight for one token are one watched member and those it supersedes. */
  ghost predicate OneFlight(ps: Pass, tok: SocketId -> int) {
    forall x, y | x in ps.flight && y in ps.flight && x != y && tok(x) == tok(y) :: Together(ps, x, y)
  }

  /** Members of one chain stay in one chain, until closed. */
  ghost predicate StayTogether(ps: Pass, q: Pass) {
    forall x, y | x != y && Together(ps, x, y) && x !in q.closed && y !in q.closed :: Together(q, x, y)
  }

  ghost predicate Accounted(ps: Pass) {
    && (forall x :: Net(ps, x) == 0)
    && (forall x :: multiset(ps.born)[x] <= 1)
  }

  /** Replacements of this pass still shake hands, and only the first can overlap. */
  ghost predicate FreshlySpawned(ps: Pass, now: nat) {
    && (forall e | e in ps.spawned :: e.live == Init && now < e.resolveBy)
    && (forall i | 1 <= i < |ps.spawned| :: ps.spawned[i].supersedes == [])
  }

  ghost predicate PassInv(ps: Pass, now: nat, tok: SocketId -> int) {
    && Accounted(ps)
    && TokensOk(Members(ps), tok)
    && (forall e | e in Members(ps) :: e.repairs <= MAX_STRANDED_REPAIRS && !e.forced)
    && FreshlySpawned(ps, now)
    && (forall x | x in ps.flight :: x in ps.born && x !in ps.closed)
    && OneFlight(ps, tok)
  }

  /** What a look may rely on. `tok` is the token libsrt stores with each id. A reconnect leaves
      a member never seen before, with its endpoint's token. A member the bridge closed does not
      read connected. A member in flight is listed so, unless it was spawned in this pass. */
  ghost predicate Faithful(ps: Pass, c: Context, a: Answers, tok: SocketId -> int) {
    && (forall r | r in c.rows :: r.token == tok(r.id))
    && (a.connect.Some? ==>
          && a.connect.value !in ps.born
          && (ps.idx < |ps.watched| ==> tok(a.connect.value) == ps.watched[ps.idx].endpoint.token))
    && (forall x | x in ps.closed ::
          SockState(a.peer, x) != Connected && SockState(a.broken, x) != Connected)
    && (forall x | x in ps.flight - a.died ::
          || HasId(ps.spawned, x)
          || exists r | r in c.rows :: r.id == x && InFlight(r.member, SockState(a.flight, x)))
  }

  /** The state a look judges in: what stopped being in flight is out, the member is logged. */
  ghost function At(ps: Pass, a: Answers): Pass
    requires ps.idx < |ps.watched|
  {
    ps.(flight := ps.flight - a.died, looked := ps.looked + [(ps.watched[ps.idx].id, ps.watched[ps.idx].notBefore)])
  }

  // ── No id is tracked twice ──

  lemma TrackedOnce(ps: Pass, w: Watched, e: Watched, x: SocketId)
    requires Accounted(ps) && w in ps.watched && e in ps.spawned
    ensures !(x in Chain(w) && x in Chain(e))
  {
    SumHasTerm(ps.watched, w, Holds(x));
    SumHasTerm(ps.spawned, e, Holds(x));
    assert Net(ps, x) == 0;
  }

  lemma TrackedIsOpen(ps: Pass, e: Watched, x: SocketId)
    requires Accounted(ps) && e in Members(ps) && x in Chain(e)
    ensures x in ps.born && x !in ps.closed && x !in ps.released
  {
    if e in ps.watched { SumHasTerm(ps.watched, e, Holds(x)); } else { SumHasTerm(ps.spawned, e, Holds(x)); }
    assert Net(ps, x) == 0;
  }

  // ── Where members go ──

  ghost predicate Carried(e: Watched, ms: seq<Watched>) {
    exists q | q in ms :: q.id == e.id && forall s | s in e.supersedes :: s in q.supersedes
  }

  ghost predicate HoldsAll(ps: Pass, chain: seq<SocketId>) {
    exists e | e in Members(ps) :: forall s | s in chain :: s in e.supersedes
  }

  lemma HandCarries(ps: Pass, other: SocketId, chain: seq<SocketId>)
    ensures forall e | e in Members(ps) :: Carried(e, Members(Hand(ps, other, chain)))
    ensures HoldsAll(Hand(ps, other, chain), chain) ||
            forall s | s in chain :: s in Hand(ps, other, chain).closed
    ensures ps.closed <= Hand(ps, other, chain).closed
  {
    var q := Hand(ps, other, chain);
    if HasId(ps.watched, other) {
      var i := IndexOf(ps.watched, other);
      assert q.watched[i] in Members(q);
      forall e | e in Members(ps) ensures Carried(e, Members(q)) {
        if e in ps.watched {
          var k :| 0 <= k < |ps.watched| && ps.watched[k] == e;
          assert q.watched[k] in Members(q);
        }
      }
    } else if HasId(ps.spawned, other) {
      var i := IndexOf(ps.spawned, other);
      assert q.spawned[i] in Members(q);
      forall e | e in Members(ps) ensures Carried(e, Members(q)) {
        if e in ps.spawned {
          var k :| 0 <= k < |ps.spawned| && ps.spawned[k] == e;
          assert q.spawned[k] in Members(q);
        }
      }
    }
  }

  lemma RepairedCarries(ps: Pass, w: Watched, plan: Plan, c: Context, a: Answers)
    requires plan != Wait
    ensures var q := Repaired(ps, w, plan, c, a);
            && (forall e | e in Members(ps) :: Carried(e, Members(q)))
            && (HoldsAll(q, Chain(w)) || forall s | s in Chain(w) :: s in q.closed)
            && ps.closed <= q.closed
  {
    hide Chain, Hand;
    var q := Repaired(ps, w, plan, c, a);
    if plan.HandToSibling? {
      HandCarries(ps.(repairs := ps.repairs + if w.forced then 0 else 1), plan.other, Chain(w));
    } else if plan == SpawnThenClose && a.connect.Some? {
      assert q.spawned[|q.spawned| - 1] in Members(q);
    }
  }

  /** The fate of every tracked id over one step: a superseded one stays superseded or is
      closed; a watched one stays watched, is superseded or closed, or is the one looked at,
      dropped and released. */
  lemma SteppedFate(ps: Pass, step: Step, verdict: Verdict, c: Context, a: Answers)
    requires ps.idx < |ps.watched|
    ensures var q, w := Stepped(ps, step, verdict, c, a), ps.watched[ps.idx];
            && ps.closed <= q.closed
            && (forall s | Superseded(ps, s) :: Superseded(q, s) || s in q.closed)
            && (forall e | e in Members(ps) ::
                  || HasId(Members(q), e.id) || Superseded(q, e.id) || e.id in q.closed
                  || (step == Drop && e == w && q.released == ps.released + [w.id]))
  {
    hide PlanRepair, Repaired;
    var q, w := Stepped(ps, step, verdict, c, a), ps.watched[ps.idx];
    SwapRemoveElems(ps.watched, ps.idx);
    match step
    case Keep =>
    case Recheck(at) =>
      assert q.watched[ps.idx] in Members(q);
      forall e | e in Members(ps) ensures Carried(e, Members(q)) {
        if e in ps.watched {
          var k :| 0 <= k < |ps.watched| && ps.watched[k] == e;
          assert q.watched[k] in Members(q);
        }
      }
    case Drop =>
    case Abandon =>
    case Repair =>
      var plan := PlanRepair(w, verdict == BrokenLive, ps.watched, ps.spawned, c.rows, c.now, a);
      if plan != Wait {
        RepairedCarries(Take(ps), w, plan, c, a);
        forall e | e in Members(ps) && e != w ensures e in Members(Take(ps)) {}
      }
  }

  lemma JudgedFate(ps: Pass, c: Context, a: Answers)
    requires ps.idx < |ps.watched|
    ensures var q := Judged(ps, c, a).0;
            && ps.closed <= q.closed && q.released == ps.released
            && (forall s | Superseded(ps, s) :: Superseded(q, s) || s in q.closed)
            && (forall e | e in Members(ps) :: HasId(Members(q), e.id))
  {
    JudgedMember(ps, c, a);
    hide Judged, Linger;
    var q := Judged(ps, c, a).0;
    forall e | e in Members(ps)
      ensures HasId(Members(q), e.id)
      ensures forall s | s in e.supersedes :: Superseded(q, s) || s in q.closed
    {
      if e in ps.watched {
        var k :| 0 <= k < |ps.watched| && ps.watched[k] == e;
        assert q.watched[k] in Members(q);
      } else {
        assert e in Members(q);
      }
    }
  }

  lemma JudgedTogether(ps: Pass, c: Context, a: Answers)
    requires ps.idx < |ps.watched|
    ensures StayTogether(ps, Judged(ps, c, a).0)
  {
    JudgedMember(ps, c, a);
    hide Judged, Linger;
    var q := Judged(ps, c, a).0;
    forall x, y | x != y && Together(ps, x, y) && x !in q.closed && y !in q.closed ensures Together(q, x, y) {
      var e :| e in Members(ps) && x in Chain(e) && y in Chain(e);
      if e in ps.watched {
        var k :| 0 <= k < |ps.watched| && ps.watched[k] == e;
        assert q.watched[k] in Members(q);
        assert k != ps.idx ==> q.watched[k] == e;
        assert k == ps.idx && q.watched[k].supersedes == e.supersedes ==> Chain(q.watched[k]) == Chain(e);
      } else {
        assert e in Members(q);
      }
    }
  }

  /** Over one look a superseded id stays superseded or is closed. A watched id stays watched,
      is superseded, is closed, or is the one looked at and released, read up or gone. */
  lemma LookFate(ps: Pass, c: Context, a: Answers)
    requires ps.idx < |ps.watched|
    ensures var q, w := Look(ps, c, a), ps.watched[ps.idx];
            && ps.closed <= q.closed
            && (forall s | Superseded(ps, s) :: Superseded(q, s) || s in q.closed)
            && (forall e | e in Members(ps) ::
                  || HasId(Members(q), e.id) || Superseded(q, e.id) || e.id in q.closed
                  || (e.id == w.id && VerdictAt(w, c) in {Gone, Confirmed} && q.released == ps.released + [w.id]))
  {
    var w := ps.watched[ps.idx];
    var at := At(ps, a);
    var j := Judged(at, c, a);
    JudgedMember(at, c, a);
    JudgedFate(at, c, a);
    SteppedFate(j.0, j.1, VerdictAt(w, c), c, a);
    hide Judged, Stepped, VerdictAt, Linger;
    assert Members(at) == Members(ps);
    assert forall s :: Superseded(ps, s) <==> Superseded(at, s);
    if w.notBefore <= c.now {
      forall e | e in Members(ps)
        ensures var q := Look(ps, c, a);
                || HasId(Members(q), e.id) || Superseded(q, e.id) || e.id in q.closed
                || (e.id == w.id && VerdictAt(w, c) in {Gone, Confirmed} && q.released == ps.released + [w.id])
      {
        var f :| f in Members(j.0) && f.id == e.id;
      }
    }
  }

  // ── The invariant, clause by clause ──

  lemma SameButFlight(ps: Pass, q: Pass, now: nat, tok: SocketId -> int)
    requires PassInv(ps, now, tok)
    requires q == ps.(idx := q.idx, looked := q.looked, flight := q.flight) && q.flight <= ps.flight
    ensures PassInv(q, now, tok)
  {
    assert Members(q) == Members(ps);
    forall x ensures Net(q, x) == 0 { assert Net(ps, x) == 0; }
  }

  /** `e` is member `f` at a later moment: superseding no more than it did. */
  ghost predicate SameMember(e: Watched, f: Watched) {
    && e.id == f.id && e.endpoint == f.endpoint && e.repairs == f.repairs && e.forced == f.forced
    && forall s | s in e.supersedes :: s in f.supersedes
  }

  ghost predicate SameClocks(e: Watched, f: Watched) {
    && e.id == f.id && e.resolveBy == f.resolveBy
    && e.strandedSince == f.strandedSince && e.closeSupersededAt == f.closeSupersededAt
  }

  /** Taking members and ids out, without forgetting who is superseded, keeps the invariant. */
  lemma ShrunkKeeps(ps: Pass, q: Pass, now: nat, tok: SocketId -> int)
    requires PassInv(ps, now, tok)
    requires q.spawned == ps.spawned && q.born == ps.born
    requires forall x :: Net(q, x) == 0
    requires forall x | x in q.flight :: x in ps.flight && (x in q.closed ==> x in ps.closed)
    requires StayTogether(ps, q)
    requires forall e | e in Members(q) :: exists f | f in Members(ps) :: SameMember(e, f)
    ensures PassInv(q, now, tok)
  {
    hide Net, Together, Members;
    forall e | e in Members(q)
      ensures e.repairs <= MAX_STRANDED_REPAIRS && !e.forced
      ensures forall s | s in Chain(e) :: tok(s) == e.endpoint.token
    {
      var f :| f in Members(ps) && SameMember(e, f);
      assert forall s | s in Chain(e) :: s in Chain(f);
    }
  }

  /** The state after judging keeps the invariant, and the member looked at is still there with
      its id, token, depth and clock of handshake. */
  lemma JudgedKeeps(ps: Pass, c: Context, a: Answers, tok: SocketId -> int)
    requires ps.idx < |ps.watched|
    requires PassInv(ps, c.now, tok)
    ensures PassInv(Judged(At(ps, a), c, a).0, c.now, tok)
  {
    var at := At(ps, a);
    var q, w := Judged(at, c, a).0, ps.watched[ps.idx];
    JudgedMember(at, c, a);
    SameButFlight(ps, at, c.now, tok);
    hide Judged, Linger, VerdictAt, Net, Elems, Members, OneFlight, TokensOk, FreshlySpawned;
    forall x ensures Net(q, x) == 0 {
      assert Net(at, x) == 0;
      JudgedNet(at, c, a, x);
    }
    JudgedSame(at, c, a);
    JudgedTogether(at, c, a);
    JudgedFlight(at, c, a);
    ShrunkKeeps(at, q, c.now, tok);
  }

  lemma JudgedSame(ps: Pass, c: Context, a: Answers)
    requires ps.idx < |ps.watched|
    ensures forall e | e in Members(Judged(ps, c, a).0) :: exists f | f in Members(ps) :: SameMember(e, f)
  {
    var q := Judged(ps, c, a).0;
    JudgedMember(ps, c, a);
    hide Judged, Linger, VerdictAt, Elems;
    forall e | e in Members(q) ensures exists f | f in Members(ps) :: SameMember(e, f) {
      if e in q.watched {
        var k :| 0 <= k < |q.watched| && q.watched[k] == e;
        assert ps.watched[k] in Members(ps) && SameMember(e, ps.watched[k]);
      } else {
        assert e in Members(ps);
      }
    }
  }

  lemma JudgedFlight(ps: Pass, c: Context, a: Answers)
    requires ps.idx < |ps.watched|
    ensures var q := Judged(ps, c, a).0;
            forall x | x in q.flight :: x in ps.flight && (x in q.closed ==> x in ps.closed)
  {
    JudgedMember(ps, c, a);
    hide Judged, Linger, VerdictAt;
  }

  /** The readings of a look, as the step of the member at `ps.idx` relies on them. */
  ghost predicate Ready(ps: Pass, c: Context, a: Answers, tok: SocketId -> int) {
    && ps.idx < |ps.watched|
    && (forall r | r in c.rows :: r.token == tok(r.id))
    && (a.connect.Some? ==>
          && a.connect.value !in ps.born
          && tok(a.connect.value) == ps.watched[ps.idx].endpoint.token)
    && (forall x | x in ps.flight ::
          || HasId(ps.spawned, x)
          || exists r | r in c.rows :: r.id == x && InFlight(r.member, SockState(a.flight, x)))
  }

  ghost function PlanAt(ps: Pass, verdict: Verdict, c: Context, a: Answers): Plan
    requires ps.idx < |ps.watched|
  {
    PlanRepair(ps.watched[ps.idx], verdict == BrokenLive, ps.watched, ps.spawned, c.rows, c.now, a)
  }

  /** Once a replacement has been spawned in the pass, no plan overlaps or hands over. */
  lemma SpawnedStopsOverlap(ps: Pass, verdict: Verdict, c: Context, a: Answers)
    requires ps.idx < |ps.watched| && ps.spawned != []
    requires Accounted(ps) && FreshlySpawned(ps, c.now)
    ensures var plan := PlanAt(ps, verdict, c, a);
            plan in {CloseNow, CloseThenSpawn, Wait} || plan.JoinSibling?
  {
    var w, e := ps.watched[ps.idx], ps.spawned[0];
    TrackedOnce(ps, w, e, e.id);
    assert e in ps.watched + ps.spawned;
    HandshakeStopsOverlap(w, verdict == BrokenLive, ps.watched, ps.spawned, c.rows, c.now, a, e);
  }

  /** What a repair that hands over or spawns has found out about its token. */
  lemma PlanToken(ps: Pass, verdict: Verdict, c: Context, a: Answers, tok: SocketId -> int)
    requires Ready(ps, c, a, tok) && TokensOk(Members(ps), tok)
    ensures var w, plan := ps.watched[ps.idx], PlanAt(ps, verdict, c, a);
            && (plan.HandToSibling? ==> tok(plan.other) == w.endpoint.token)
            && (plan in {CloseThenSpawn, SpawnThenClose} ==>
                  && w.repairs < MAX_STRANDED_REPAIRS
                  && (forall y | y in ps.flight && tok(y) == w.endpoint.token :: y in Chain(w)))
  {
    var w, plan := ps.watched[ps.idx], PlanAt(ps, verdict, c, a);
    assert w in Members(ps);
    if plan.HandToSibling? {
      HandedSiblingIsWatched(w, verdict == BrokenLive, ps.watched, ps.spawned, c.rows, c.now, a);
      if e :| e in ps.spawned && e.id == plan.other && e.endpoint.token == w.endpoint.token {
        assert e in Members(ps) && e.id in Chain(e);
      }
    }
    forall e | e in ps.spawned ensures tok(e.id) == e.endpoint.token {
      assert e in Members(ps) && e.id in Chain(e);
    }
    if plan in {CloseThenSpawn, SpawnThenClose} {
      forall y | y in ps.flight && tok(y) == w.endpoint.token ensures y in Chain(w) {
        assert !HasId(ps.spawned, y);
        var r :| r in c.rows && r.id == y && InFlight(r.member, SockState(a.flight, y));
        assert !FlightRow(r, w.endpoint.token, Chain(w), a.flight);
      }
    }
  }

  /** Every member after a repair is one from before, one handed the chain, or the replacement. */
  lemma RepairedMembers(ps: Pass, w: Watched, plan: Plan, c: Context, a: Answers)
    requires plan != Wait
    ensures var q := Repaired(ps, w, plan, c, a);
            forall e | e in Members(q) ::
              || e in Members(ps)
              || (&& plan.HandToSibling?
                  && exists f | f in Members(ps) ::
                       f.id == plan.other && e == f.(supersedes := f.supersedes + Chain(w)))
              || (&& plan in {CloseThenSpawn, SpawnThenClose} && a.connect.Some?
                  && e == Replacement(w, a.connect.value, if plan == SpawnThenClose then Chain(w) else [], c.now, a))
  {
    hide Chain, Replacement;
    var q := Repaired(ps, w, plan, c, a);
    if plan.HandToSibling? && HasId(ps.watched, plan.other) {
      var i := IndexOf(ps.watched, plan.other);
      assert ps.watched[i] in Members(ps);
    } else if plan.HandToSibling? && HasId(ps.spawned, plan.other) {
      var i := IndexOf(ps.spawned, plan.other);
      assert ps.spawned[i] in Members(ps);
    }
  }

  lemma RepairKeepsMembers(ps: Pass, verdict: Verdict, c: Context, a: Answers, tok: SocketId -> int)
    requires Ready(ps, c, a, tok) && PassInv(ps, c.now, tok)
    requires PlanAt(ps, verdict, c, a) != Wait
    ensures var q := Repaired(Take(ps), ps.watched[ps.idx], PlanAt(ps, verdict, c, a), c, a);
            && TokensOk(Members(q), tok)
            && (forall e | e in Members(q) :: e.repairs <= MAX_STRANDED_REPAIRS && !e.forced)
  {
    var w, plan := ps.watched[ps.idx], PlanAt(ps, verdict, c, a);
    PlanToken(ps, verdict, c, a, tok);
    SwapRemoveElems(ps.watched, ps.idx);
    RepairedMembers(Take(ps), w, plan, c, a);
    hide PlanAt, Repaired;
    assert w in Members(ps);
    assert forall e | e in Members(Take(ps)) :: e in Members(ps);
    forall e | e in Members(Repaired(Take(ps), w, plan, c, a))
      ensures e.repairs <= MAX_STRANDED_REPAIRS && !e.forced
      ensures forall s | s in Chain(e) :: tok(s) == e.endpoint.token
    {
      if e !in Members(ps) && plan.HandToSibling? {
        var f :| f in Members(ps) && f.id == plan.other && e == f.(supersedes := f.supersedes + Chain(w));
        assert f.id in Chain(f);
        assert forall s | s in Chain(e) :: s in Chain(f) || s in Chain(w);
      }
    }
  }

  lemma RepairKeepsSpawned(ps: Pass, verdict: Verdict, c: Context, a: Answers)
    requires ps.idx < |ps.watched| && Accounted(ps) && FreshlySpawned(ps, c.now)
    requires PlanAt(ps, verdict, c, a) != Wait
    ensures FreshlySpawned(Repaired(Take(ps), ps.watched[ps.idx], PlanAt(ps, verdict, c, a), c, a), c.now)
  {
    if ps.spawned != [] { SpawnedStopsOverlap(ps, verdict, c, a); }
    hide PlanAt;
  }

  /** In flight after a repair: what was, less what is now closed, and the replacement. */
  lemma RepairedFlight(ps: Pass, w: Watched, plan: Plan, c: Context, a: Answers)
    requires plan != Wait
    ensures var q := Repaired(ps, w, plan, c, a);
            var spawns := plan in {CloseThenSpawn, SpawnThenClose} && a.connect.Some?;
            && q.born == ps.born + (if spawns then [a.connect.value] else [])
            && (q.closed == ps.closed || q.closed == ps.closed + Chain(w))
            && (forall x | x in q.flight ::
                  || (x in ps.flight && (x in q.closed ==> x in ps.closed || (spawns && x == a.connect.value)))
                  || (spawns && x == a.connect.value))
  {
    hide Chain;
    assert forall x :: x in Elems(Chain(w)) <==> x in Chain(w);
  }

  lemma ClosedWasBorn(ps: Pass, x: SocketId)
    requires Accounted(ps) && x in ps.closed
    ensures x in ps.born
  {
    assert Net(ps, x) == 0;
  }

  lemma CarriedTogether(ps: Pass, q: Pass, e: Watched, x: SocketId, y: SocketId)
    requires e in Members(ps) && Carried(e, Members(q)) && x in Chain(e) && y in Chain(e)
    ensures Together(q, x, y)
  {
    var f :| f in Members(q) && f.id == e.id && forall s | s in e.supersedes :: s in f.supersedes;
    assert x in Chain(f) && y in Chain(f);
  }

  lemma RepairTogether(ps: Pass, w: Watched, plan: Plan, c: Context, a: Answers)
    requires ps.idx < |ps.watched| && w == ps.watched[ps.idx] && plan != Wait
    ensures var q := Repaired(Take(ps), w, plan, c, a);
            StayTogether(ps, q)
    ensures var q := Repaired(Take(ps), w, plan, c, a);
            HoldsAll(q, Chain(w)) || forall s | s in Chain(w) :: s in q.closed
  {
    var q := Repaired(Take(ps), w, plan, c, a);
    SwapRemoveElems(ps.watched, ps.idx);
    RepairedCarries(Take(ps), w, plan, c, a);
    hide Repaired;
    forall x, y | x != y && Together(ps, x, y) && x !in q.closed && y !in q.closed ensures Together(q, x, y) {
      var e :| e in Members(ps) && x in Chain(e) && y in Chain(e);
      if e != w {
        assert e in Members(Take(ps));
        CarriedTogether(Take(ps), q, e, x, y);
      } else if HoldsAll(q, Chain(w)) {
        HeldTogether(q, Chain(w), x, y);
      }
    }
  }

  lemma HeldTogether(ps: Pass, chain: seq<SocketId>, x: SocketId, y: SocketId)
    requires HoldsAll(ps, chain) && x in chain && y in chain
    ensures Together(ps, x, y)
  {
    var e :| e in Members(ps) && forall s | s in chain :: s in e.supersedes;
    assert x in Chain(e) && y in Chain(e);
  }

  /** A replacement joins whatever of its chain stays open. */
  lemma ReplacementTogether(ps: Pass, w: Watched, plan: Plan, c: Context, a: Answers)
    requires plan in {CloseThenSpawn, SpawnThenClose} && a.connect.Some?
    ensures var q := Repaired(ps, w, plan, c, a);
            forall y | y in Chain(w) :: y in q.closed || Together(q, a.connect.value, y)
  {
    var q := Repaired(ps, w, plan, c, a);
    var e := q.spawned[|q.spawned| - 1];
    assert e in Members(q) && e.id in Chain(e);
  }

  lemma RepairKeepsFlight(ps: Pass, verdict: Verdict, c: Context, a: Answers, tok: SocketId -> int)
    requires Ready(ps, c, a, tok) && PassInv(ps, c.now, tok)
    requires PlanAt(ps, verdict, c, a) != Wait
    ensures var q := Repaired(Take(ps), ps.watched[ps.idx], PlanAt(ps, verdict, c, a), c, a);
            && (forall x | x in q.flight :: x in q.born && x !in q.closed)
            && OneFlight(q, tok)
  {
    var w, plan := ps.watched[ps.idx], PlanAt(ps, verdict, c, a);
    var q := Repaired(Take(ps), w, plan, c, a);
    PlanToken(ps, verdict, c, a, tok);
    RepairTogether(ps, w, plan, c, a);
    RepairedFlight(Take(ps), w, plan, c, a);
    if plan in {CloseThenSpawn, SpawnThenClose} && a.connect.Some? {
      ReplacementTogether(Take(ps), w, plan, c, a);
    }
    hide PlanAt, Repaired, HoldsAll, Together;
    assert w in Members(ps);
    forall x | x in q.flight ensures x in q.born && x !in q.closed {
      if a.connect.Some? && x == a.connect.value && x in Chain(w) {
        TrackedIsOpen(ps, w, x);
      } else if a.connect.Some? && x == a.connect.value && x in ps.closed {
        ClosedWasBorn(ps, x);
      }
    }
    forall x, y | x in q.flight && y in q.flight && x != y && tok(x) == tok(y) ensures Together(q, x, y) {
      TogetherTurns(q, x, y);
    }
  }

  lemma TogetherTurns(ps: Pass, x: SocketId, y: SocketId)
    ensures Together(ps, x, y) == Together(ps, y, x)
  {
  }

  /** A step that does not repair only takes members and ids out. */
  lemma PlainStepShrinks(ps: Pass, step: Step, verdict: Verdict, c: Context, a: Answers)
    requires ps.idx < |ps.watched|
    requires step != Repair || PlanAt(ps, verdict, c, a) == Wait
    ensures var q := Stepped(ps, step, verdict, c, a);
            && q.spawned == ps.spawned && q.born == ps.born && q.repairs == ps.repairs
            && (forall x | x in q.flight :: x in ps.flight && (x in q.closed ==> x in ps.closed))
            && (forall e | e in Members(q) :: exists f | f in Members(ps) :: SameMember(e, f) && SameClocks(e, f))
  {
    var q, w := Stepped(ps, step, verdict, c, a), ps.watched[ps.idx];
    hide PlanRepair;
    SwapRemoveElems(ps.watched, ps.idx);
    if step.Recheck? {
      forall e | e in Members(q) ensures exists f | f in Members(ps) :: SameMember(e, f) && SameClocks(e, f) {
        if e in q.watched {
          var k :| 0 <= k < |q.watched| && q.watched[k] == e;
          assert ps.watched[k] in Members(ps) && SameMember(e, ps.watched[k]) && SameClocks(e, ps.watched[k]);
        } else {
          assert e in Members(ps) && SameMember(e, e);
        }
      }
    } else {
      assert forall e | e in Members(q) :: e in Members(ps) && SameMember(e, e);
    }
  }

  lemma PlainStepTogether(ps: Pass, step: Step, verdict: Verdict, c: Context, a: Answers)
    requires ps.idx < |ps.watched|
    requires step != Repair || PlanAt(ps, verdict, c, a) == Wait
    ensures StayTogether(ps, Stepped(ps, step, verdict, c, a))
  {
    var q, w := Stepped(ps, step, verdict, c, a), ps.watched[ps.idx];
    hide PlanRepair;
    SwapRemoveElems(ps.watched, ps.idx);
    forall x, y | x != y && Together(ps, x, y) && x !in q.closed && y !in q.closed ensures Together(q, x, y) {
      var e :| e in Members(ps) && x in Chain(e) && y in Chain(e);
      if step.Recheck? && e in ps.watched {
        var k :| 0 <= k < |ps.watched| && ps.watched[k] == e;
        assert q.watched[k] in Members(q) && Chain(q.watched[k]) == Chain(e);
      } else if e != w || !(step in {Drop, Abandon}) {
        assert e in Members(q);
      }
    }
  }

  lemma SteppedKeeps(ps: Pass, step: Step, verdict: Verdict, c: Context, a: Answers, tok: SocketId -> int)
    requires Ready(ps, c, a, tok) && PassInv(ps, c.now, tok)
    ensures PassInv(Stepped(ps, step, verdict, c, a), c.now, tok)
  {
    var q := Stepped(ps, step, verdict, c, a);
    hide Net;
    forall x ensures Net(q, x) == 0 {
      SteppedNet(ps, step, verdict, c, a, x);
      assert Net(ps, x) == 0;
    }
    if step == Repair && PlanAt(ps, verdict, c, a) != Wait {
      RepairKeepsMembers(ps, verdict, c, a, tok);
      RepairKeepsSpawned(ps, verdict, c, a);
      RepairKeepsFlight(ps, verdict, c, a, tok);
      NoRebirth(ps, verdict, c, a);
      hide PlanRepair, Repaired, TokensOk, FreshlySpawned, OneFlight;
    } else {
      PlainStepTogether(ps, step, verdict, c, a);
      PlainStepShrinks(ps, step, verdict, c, a);
      ShrunkKeeps(ps, q, c.now, tok);
    }
  }

  /** A repair spawns an id never spawned before. */
  lemma NoRebirth(ps: Pass, verdict: Verdict, c: Context, a: Answers)
    requires ps.idx < |ps.watched| && PlanAt(ps, verdict, c, a) != Wait
    requires a.connect.Some? ==> a.connect.value !in ps.born
    requires forall x :: multiset(ps.born)[x] <= 1
    ensures forall x :: multiset(Repaired(Take(ps), ps.watched[ps.idx], PlanAt(ps, verdict, c, a), c, a).born)[x] <= 1
  {
    RepairedFlight(Take(ps), ps.watched[ps.idx], PlanAt(ps, verdict, c, a), c, a);
    hide PlanAt, Repaired;
  }

  /** Every look keeps the invariant, whatever libsrt answers faithfully. */
  lemma LookKeeps(ps: Pass, c: Context, a: Answers, tok: SocketId -> int)
    requires PassInv(ps, c.now, tok) && Faithful(ps, c, a, tok)
    ensures PassInv(Look(ps, c, a), c.now, tok)
  {
    if ps.idx >= |ps.watched| {
      SameButFlight(ps, Look(ps, c, a), c.now, tok);
      return;
    }
    var w, at := ps.watched[ps.idx], At(ps, a);
    SameButFlight(ps, at, c.now, tok);
    if w.notBefore > c.now {
      SameButFlight(ps, Look(ps, c, a), c.now, tok);
      return;
    }
    var j := Judged(at, c, a);
    JudgedKeeps(ps, c, a, tok);
    JudgedMember(at, c, a);
    hide Judged, Linger, VerdictAt, PassInv;
    assert Ready(j.0, c, a, tok);
    SteppedKeeps(j.0, j.1, VerdictAt(w, c), c, a, tok);
    hide Stepped;
  }
}
