/** What every look of a pass keeps, whatever libsrt answers. */
module GroupLaws {
  import opened SrtTypes
  import opened Watch
  import opened Journal
  import opened RepairPlan
  import opened CheckGroup

  // ── Sums over the tracked members ──

  ghost function Sum(ws: seq<Watched>, f: Watched -> nat): nat {
    if ws == [] then 0 else Sum(ws[..|ws| - 1], f) + f(ws[|ws| - 1])
  }

  lemma {:induction false} SumConcat(a: seq<Watched>, b: seq<Watched>, f: Watched -> nat)
    ensures Sum(a + b, f) == Sum(a, f) + Sum(b, f)
  {
    if b == [] {
      assert a + b == a;
    } else {
      assert (a + b)[..|a + b| - 1] == a + b[..|b| - 1];
      SumConcat(a, b[..|b| - 1], f);
    }
  }

  lemma {:induction false} SumUpdate(ws: seq<Watched>, i: nat, w: Watched, f: Watched -> nat)
    requires i < |ws|
    ensures Sum(ws[i := w], f) + f(ws[i]) == Sum(ws, f) + f(w)
  {
    var n := |ws| - 1;
    if i < n {
      assert ws[i := w][..n] == ws[..n][i := w];
      SumUpdate(ws[..n], i, w, f);
    } else {
      assert ws[i := w][..n] == ws[..n];
    }
  }

  lemma SumSwapRemove(ws: seq<Watched>, i: nat, f: Watched -> nat)
    requires i < |ws|
    ensures Sum(SwapRemove(ws, i), f) + f(ws[i]) == Sum(ws, f)
  {
    var s := ws[i := ws[|ws| - 1]];
    SumUpdate(ws, i, ws[|ws| - 1], f);
    assert SwapRemove(ws, i) == s[..|s| - 1];
  }

  lemma SumHasTerm(ws: seq<Watched>, w: Watched, f: Watched -> nat)
    requires w in ws
    ensures Sum(ws, f) >= f(w)
  {
    var i :| 0 <= i < |ws| && ws[i] == w;
    SumSwapRemove(ws, i, f);
  }

  lemma {:induction false} SumOfTwo(ws: seq<Watched>, i: nat, j: nat, f: Watched -> nat)
    requires i < j < |ws|
    ensures Sum(ws, f) >= f(ws[i]) + f(ws[j])
  {
    var n := |ws| - 1;
    if j == n { SumHasTerm(ws[..n], ws[i], f); } else { SumOfTwo(ws[..n], i, j, f); }
  }

  ghost function Pot(ps: Pass, f: Watched -> nat): nat {
    Sum(ps.watched, f) + Sum(ps.spawned, f)
  }

  lemma PutPot(ps: Pass, w: Watched, f: Watched -> nat)
    requires ps.idx < |ps.watched|
    ensures Pot(Put(ps, w), f) + f(ps.watched[ps.idx]) == Pot(ps, f) + f(w)
  {
    SumUpdate(ps.watched, ps.idx, w, f);
  }

  lemma TakePot(ps: Pass, f: Watched -> nat)
    requires ps.idx < |ps.watched|
    ensures Pot(Take(ps), f) + f(ps.watched[ps.idx]) == Pot(ps, f)
  {
    SumSwapRemove(ps.watched, ps.idx, f);
  }

  lemma SpawnPot(ps: Pass, e: Watched, n: Note, f: Watched -> nat)
    ensures Pot(Spawn(ps, e, n), f) == Pot(ps, f) + f(e)
  {
    SumConcat(ps.spawned, [e], f);
    assert [e][..0] == [];
  }

  // ── Conservation of ids ──

  ghost function Holds(x: SocketId): Watched -> nat {
    w => multiset(Chain(w))[x]
  }

  /** How often `x` is accounted for: watched, superseded, closed or released. */
  ghost function Held(ps: Pass, x: SocketId): nat {
    Pot(ps, Holds(x)) + multiset(ps.closed)[x] + multiset(ps.released)[x]
  }

  /** The account of `x` less the times it was spawned. */
  ghost function Net(ps: Pass, x: SocketId): int {
    Held(ps, x) - multiset(ps.born)[x]
  }

  lemma CloseNet(ps: Pass, ids: seq<SocketId>, x: SocketId)
    ensures Net(CloseIds(ps, ids), x) == Net(ps, x) + multiset(ids)[x]
  {
  }

  lemma HandNet(ps: Pass, other: SocketId, chain: seq<SocketId>, x: SocketId)
    ensures Net(Hand(ps, other, chain), x) == Net(ps, x) + multiset(chain)[x]
  {
    if HasId(ps.watched, other) {
      ExtendHolds(ps.watched, other, chain, x);
    } else if HasId(ps.spawned, other) {
      ExtendHolds(ps.spawned, other, chain, x);
    }
  }

  lemma ExtendHolds(ws: seq<Watched>, other: SocketId, chain: seq<SocketId>, x: SocketId)
    requires HasId(ws, other)
    ensures Sum(Extend(ws, other, chain), Holds(x)) == Sum(ws, Holds(x)) + multiset(chain)[x]
  {
    var i := IndexOf(ws, other);
    var w := ws[i];
    SumUpdate(ws, i, w.(supersedes := w.supersedes + chain), Holds(x));
  }

  lemma SpawnNet(ps: Pass, e: Watched, n: Note, x: SocketId)
    ensures Net(Spawn(ps, e, n), x) == Net(ps, x) + multiset(e.supersedes)[x]
  {
    SpawnPot(ps, e, n, Holds(x));
  }

  lemma RepairedNet(ps: Pass, w: Watched, plan: Plan, c: Context, a: Answers, x: SocketId)
    requires plan != Wait
    ensures Net(Repaired(ps, w, plan, c, a), x) == Net(ps, x) + multiset(Chain(w))[x]
  {
    hide Net;
    var counted := ps.(repairs := ps.repairs + if w.forced then 0 else 1);
    RepairsNet(ps, counted.repairs, x);
    CloseNet(counted, Chain(w), x);
    match plan
    case CloseNow =>
    case JoinSibling(_) =>
    case HandToSibling(other) => HandNet(counted, other, Chain(w), x);
    case CloseThenSpawn =>
      if a.connect.Some? {
        SpawnNet(CloseIds(counted, Chain(w)), Replacement(w, a.connect.value, [], c.now, a),
                 Begins(a.connect.value, c.now, a.conntimeo, Chain(w)), x);
      }
    case SpawnThenClose =>
      if a.connect.Some? {
        SpawnNet(counted, Replacement(w, a.connect.value, Chain(w), c.now, a),
                 Begins(a.connect.value, c.now, a.conntimeo, Chain(w)), x);
      }
  }

  lemma RepairsNet(ps: Pass, n: nat, x: SocketId)
    ensures Net(ps.(repairs := n), x) == Net(ps, x)
  {
  }

  /** The pass once its journal has the judgement of the member the loop is at. */
  ghost function Noted(ps: Pass, c: Context, a: Answers): Pass
    requires ps.idx < |ps.watched|
  {
    ps.(log := ps.log + [Judging(ps.watched[ps.idx], c, a)])
  }

  /** Judging writes back the same member; what it no longer supersedes it has closed, and a
      member to be repaired, kept back or abandoned supersedes what it did. */
  lemma JudgedMember(ps: Pass, c: Context, a: Answers)
    requires ps.idx < |ps.watched|
    ensures var w, j := ps.watched[ps.idx], Judged(ps, c, a).0;
            var v, shut := j.watched[ps.idx], Linger(w, VerdictAt(w, c), c.now, a).1;
            && j == Put(CloseIds(Noted(ps, c, a), shut), v)
            && v.id == w.id && v.endpoint == w.endpoint && v.live == w.live
            && v.repairs == w.repairs && v.forced == w.forced && v.resolveBy == w.resolveBy
            && ((shut == [] && v.supersedes == w.supersedes) || (shut == w.supersedes && v.supersedes == []))
            && VerdictAt(v, c) == VerdictAt(w, c)
            && (Judged(ps, c, a).1 in {Repair, Abandon} ==> shut == [])
            && (Judged(ps, c, a).1 == Drop ==>
                  VerdictAt(w, c) == Gone || (VerdictAt(w, c) == Confirmed && v.supersedes == []))
  {
    hide ClassifyWatched;
  }

  lemma JudgedNet(ps: Pass, c: Context, a: Answers, x: SocketId)
    requires ps.idx < |ps.watched|
    ensures Net(Judged(ps, c, a).0, x) == Net(ps, x)
  {
    var w, j := ps.watched[ps.idx], Judged(ps, c, a).0;
    var v, shut := j.watched[ps.idx], Linger(w, VerdictAt(w, c), c.now, a).1;
    JudgedMember(ps, c, a);
    CloseNet(Noted(ps, c, a), shut, x);
    PutPot(CloseIds(Noted(ps, c, a), shut), v, Holds(x));
    hide Judged, Linger;
  }

  lemma TakeNet(ps: Pass, x: SocketId)
    requires ps.idx < |ps.watched|
    ensures var w := ps.watched[ps.idx];
            Net(Take(ps), x) + multiset(w.supersedes)[x] + multiset([w.id])[x] == Net(ps, x)
  {
    TakePot(ps, Holds(x));
  }

  lemma MovesNet(ps: Pass, id: SocketId, at: nat, x: SocketId)
    ensures Net(Release(ps, id), x) == Net(ps, x) + multiset([id])[x]
    ensures Net(Next(ps), x) == Net(ps, x)
    ensures ps.idx < |ps.watched| ==> Net(Put(ps, ps.watched[ps.idx].(notBefore := at)), x) == Net(ps, x)
  {
    if ps.idx < |ps.watched| { PutPot(ps, ps.watched[ps.idx].(notBefore := at), Holds(x)); }
  }

  lemma SteppedNet(ps: Pass, step: Step, verdict: Verdict, c: Context, a: Answers, x: SocketId)
    requires ps.idx < |ps.watched|
    ensures Net(Stepped(ps, step, verdict, c, a), x) == Net(ps, x)
  {
    hide PlanRepair, Repaired, Net;
    var w := ps.watched[ps.idx];
    TakeNet(ps, x);
    MovesNet(ps, w.id, 0, x);
    match step
    case Keep =>
    case Recheck(at) =>
      MovesNet(Put(ps, w.(notBefore := at)), w.id, at, x);
      MovesNet(ps, w.id, at, x);
    case Drop =>
      MovesNet(Take(ps), w.id, 0, x);
      CloseNet(Release(Take(ps), w.id), w.supersedes, x);
    case Abandon =>
      CloseNet(Take(ps), [w.id] + w.supersedes, x);
    case Repair =>
      var plan := PlanRepair(w, verdict == BrokenLive, ps.watched, ps.spawned, c.rows, c.now, a);
      if plan != Wait { RepairedNet(Take(ps), w, plan, c, a, x); }
  }

  /** Conservation: over one look, whatever libsrt answers, every id is accounted for as often
      as before, plus once for each time it was spawned. */
  lemma LookConserves(ps: Pass, c: Context, a: Answers, x: SocketId)
    ensures Net(Look(ps, c, a), x) == Net(ps, x)
  {
    hide Judged, Stepped;
    if ps.idx < |ps.watched| {
      var w := ps.watched[ps.idx];
      var at := ps.(flight := ps.flight - a.died, looked := ps.looked + [(w.id, w.notBefore)]);
      JudgedNet(at, c, a, x);
      var j := Judged(at, c, a);
      SteppedNet(j.0, j.1, VerdictAt(w, c), c, a, x);
    }
  }
}
