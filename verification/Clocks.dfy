/** The clocks of a watched member are always those its group's journal tells: no pass, repair or
    re-add sets, moves or forgets one. */
module Clocks {
  import opened SrtTypes
  import opened Watch
  import opened Journal
  import opened RepairPlan
  import opened CheckGroup
  import opened GroupLaws
  import opened PassSafety
  import opened PassTheorems

  ghost predicate BegunIn(log: seq<Note>, x: SocketId) {
    exists n | n in log :: n.Begins? && n.id == x
  }

  /** Every note of how `x` began makes `due` its connect deadline: its connect timeout, and a
      second, after it. */
  ghost predicate DueBy(log: seq<Note>, x: SocketId, due: nat) {
    && BegunIn(log, x)
    && forall n | n in log && n.Begins? && n.id == x :: due == n.at + ConnectTimeout(n.conntimeo) + HANDSHAKE_TTL_SLACK
  }

  ghost predicate Told(e: Watched, log: seq<Note>) {
    && e.strandedSince == Since(log, e.id)
    && e.closeSupersededAt == LingerEnd(log, e.id)
    && DueBy(log, e.id, e.resolveBy)
  }

  /** The journal names only members ever spawned, and has every close. */
  ghost predicate Agrees(ps: Pass) {
    && (forall n | n in ps.log && Timed(n) :: n.id in ps.born)
    && (forall x :: Ends(x) in ps.log <==> x in ps.closed)
  }

  ghost predicate Clocked(ps: Pass) {
    Agrees(ps) && forall e | e in Members(ps) :: Told(e, ps.log)
  }

  // ── Notes that read no one ──

  ghost predicate Unread(more: seq<Note>) { forall n | n in more :: !n.Reads? }

  lemma ToldStays(e: Watched, log: seq<Note>, more: seq<Note>)
    requires Told(e, log) && Unread(more) && !BegunIn(more, e.id)
    ensures Told(e, log + more)
  {
    QuietClocks(log, more, e.id);
    var n :| n in log && n.Begins? && n.id == e.id;
    assert n in log + more;
    hide Since, LingerEnd;
  }

  /** A member never read, begun by a note of `more`. */
  ghost predicate Fresh(e: Watched, more: seq<Note>) {
    e.strandedSince == None && e.closeSupersededAt == None && DueBy(more, e.id, e.resolveBy)
  }

  lemma ToldFresh(e: Watched, log: seq<Note>, more: seq<Note>)
    requires Fresh(e, more) && Unread(more) && (forall n | n in log && Timed(n) :: n.id != e.id)
    ensures Told(e, log + more)
  {
    NeverRead(log + more, e.id);
    var n :| n in more && n.Begins? && n.id == e.id;
    assert n in log + more;
    hide Since, LingerEnd;
  }

  /** The members of `q` are those of `ps`, their clocks unmoved, and fresh ones. */
  ghost predicate Descends(ps: Pass, q: Pass, more: seq<Note>) {
    && q.log == ps.log + more && Unread(more)
    && (forall n | n in more && n.Begins? :: n.id !in ps.born)
    && (forall e | e in Members(q) :: (exists f | f in Members(ps) :: SameClocks(e, f)) || Fresh(e, more))
  }

  lemma DescendsTold(ps: Pass, q: Pass, more: seq<Note>)
    requires (forall e | e in Members(ps) :: Told(e, ps.log)) && (forall n | n in ps.log && Timed(n) :: n.id in ps.born)
    requires Descends(ps, q, more)
    ensures forall e | e in Members(q) :: Told(e, q.log)
  {
    hide Told, Members;
    forall e | e in Members(q) ensures Told(e, q.log) {
      if f :| f in Members(ps) && SameClocks(e, f) {
        ToldOf(e, f, ps.log);
        if BegunIn(more, e.id) { ToldBegun(e, ps.log); }
        ToldStays(e, ps.log, more);
      } else {
        FreshBegun(e, more);
        ToldFresh(e, ps.log, more);
      }
    }
  }

  lemma ToldOf(e: Watched, f: Watched, log: seq<Note>)
    requires SameClocks(e, f) && Told(f, log)
    ensures Told(e, log)
  {
  }

  lemma ToldBegun(e: Watched, log: seq<Note>)
    requires Told(e, log)
    ensures BegunIn(log, e.id)
  {
  }

  lemma FreshBegun(e: Watched, more: seq<Note>)
    requires Fresh(e, more)
    ensures BegunIn(more, e.id)
  {
  }

  // ── One look ──

  /** No other member has the id of the one the loop is at. */
  lemma OtherIds(ps: Pass, k: nat)
    requires Accounted(ps) && ps.idx < |ps.watched| && k < |ps.watched| && k != ps.idx
    ensures ps.watched[k].id != ps.watched[ps.idx].id
  {
    var x := ps.watched[ps.idx].id;
    SumOfTwo(ps.watched, if k < ps.idx then k else ps.idx, if k < ps.idx then ps.idx else k, Holds(x));
    assert Net(ps, x) == 0;
  }

  lemma TakenIsOut(ps: Pass, e: Watched)
    requires Accounted(ps) && ps.idx < |ps.watched| && e in Members(Take(ps))
    ensures e.id != ps.watched[ps.idx].id
  {
    var x := ps.watched[ps.idx].id;
    TakePot(ps, Holds(x));
    if e in Take(ps).watched {
      SumHasTerm(Take(ps).watched, e, Holds(x));
    } else {
      SumHasTerm(ps.spawned, e, Holds(x));
    }
    assert Net(ps, x) == 0;
  }

  /** What a reading does to a member is what it does to the clocks the journal tells. */
  lemma ReadingTold(w: Watched, log: seq<Note>, c: Context, a: Answers)
    requires Told(w, log) && VerdictAt(w, c) != Gone
    ensures var lingered := Linger(w, VerdictAt(w, c), c.now, a).0;
            Told(NextStep(lingered, VerdictAt(w, c), c.now).0, log + [Judging(w, c, a)])
  {
    hide VerdictAt, LingerTime;
    var after := log + [Judging(w, c, a)];
    assert after[..|after| - 1] == log;
    var n :| n in log && n.Begins? && n.id == w.id;
    assert n in after;
  }

  lemma OtherTold(e: Watched, log: seq<Note>, n: Note)
    requires Told(e, log) && n.Reads? && n.id != e.id
    ensures Told(e, log + [n])
  {
    QuietClocks(log, [n], e.id);
    var b :| b in log && b.Begins? && b.id == e.id;
    assert b in log + [n];
    hide Since, LingerEnd;
  }

  /** Judging keeps every clock told, but that of a member gone. */
  lemma JudgedTold(ps: Pass, c: Context, a: Answers)
    requires ps.idx < |ps.watched| && Accounted(ps) && Clocked(ps)
    ensures var j := Judged(ps, c, a).0;
            && Agrees(j)
            && forall e | e in Members(j) ::
                 Told(e, j.log) || (e == j.watched[ps.idx] && VerdictAt(ps.watched[ps.idx], c) == Gone)
  {
    var w, j := ps.watched[ps.idx], Judged(ps, c, a).0;
    var shut := Linger(w, VerdictAt(w, c), c.now, a).1;
    JudgedMember(ps, c, a);
    assert w in Members(ps);
    ToldBegun(w, ps.log);
    assert j.log == Noted(ps, c, a).log + EndsOf(shut);
    JudgedAgrees(ps, c, a);
    assert Unread(EndsOf(shut)) && forall x :: !BegunIn(EndsOf(shut), x);
    forall e | e in Members(j)
      ensures Told(e, j.log) || (e == j.watched[ps.idx] && VerdictAt(w, c) == Gone)
    {
      if e in j.spawned && e !in j.watched {
        TrackedOnce(ps, w, e, w.id);
        assert e in Members(ps);
        OtherTold(e, ps.log, Judging(w, c, a));
        ToldStays(e, Noted(ps, c, a).log, EndsOf(shut));
      } else {
        var k :| 0 <= k < |j.watched| && j.watched[k] == e;
        if k != ps.idx {
          OtherIds(ps, k);
          assert ps.watched[k] in Members(ps);
          OtherTold(e, ps.log, Judging(w, c, a));
          ToldStays(e, Noted(ps, c, a).log, EndsOf(shut));
        } else if VerdictAt(w, c) != Gone {
          ReadingTold(w, ps.log, c, a);
          ToldStays(e, Noted(ps, c, a).log, EndsOf(shut));
        }
      }
    }
  }

  lemma JudgedAgrees(ps: Pass, c: Context, a: Answers)
    requires ps.idx < |ps.watched| && Agrees(ps) && BegunIn(ps.log, ps.watched[ps.idx].id)
    ensures Agrees(Judged(ps, c, a).0)
  {
    var w, j := ps.watched[ps.idx], Judged(ps, c, a).0;
    var shut := Linger(w, VerdictAt(w, c), c.now, a).1;
    JudgedMember(ps, c, a);
    CloseAgrees(Noted(ps, c, a), shut);
    hide Judged, Linger;
  }

  lemma CloseAgrees(ps: Pass, ids: seq<SocketId>)
    requires Agrees(ps)
    ensures Agrees(CloseIds(ps, ids))
  {
    forall x ensures Ends(x) in EndsOf(ids) <==> x in ids {
      if x in ids {
        var i :| 0 <= i < |ids| && ids[i] == x;
        assert EndsOf(ids)[i] == Ends(x);
      }
    }
  }

  lemma SpawnAgrees(ps: Pass, e: Watched, n: Note)
    requires Agrees(ps) && n.Begins? && n.id == e.id
    ensures Agrees(Spawn(ps, e, n))
  {
  }

  /** Notes made now. */
  ghost predicate AllNow(more: seq<Note>, now: nat) { forall n | n in more && Timed(n) :: n.at == now }

  /** What a repair adds to the journal, in order. */
  ghost function RepairLog(ps: Pass, w: Watched, plan: Plan, c: Context, a: Answers): seq<Note>
    requires plan != Wait
  {
    var ends := EndsOf(Chain(w));
    match plan
    case CloseNow => ends
    case JoinSibling(_) => ends
    case HandToSibling(other) =>
      if HasId(ps.watched, other) || HasId(ps.spawned, other) then [Hands(other, Chain(w))] else ends
    case CloseThenSpawn => ends + if a.connect.Some? then [Begun(w, a.connect.value, c, a)] else []
    case SpawnThenClose => if a.connect.Some? then [Begun(w, a.connect.value, c, a)] else ends
  }

  ghost function Begun(w: Watched, id: SocketId, c: Context, a: Answers): Note {
    Begins(id, c.now, a.conntimeo, Chain(w))
  }

  lemma RepairedLog(ps: Pass, w: Watched, plan: Plan, c: Context, a: Answers)
    requires plan != Wait
    ensures Repaired(ps, w, plan, c, a).log == ps.log + RepairLog(ps, w, plan, c, a)
  {
    hide Elems, Chain;
  }

  /** Nothing is read, and only the replacement is begun. */
  lemma RepairNotes(ps: Pass, w: Watched, plan: Plan, c: Context, a: Answers)
    requires plan != Wait
    ensures var more := RepairLog(ps, w, plan, c, a);
            var spawns := plan in {CloseThenSpawn, SpawnThenClose} && a.connect.Some?;
            && Unread(more) && AllNow(more, c.now)
            && (forall n | n in more && n.Begins? :: spawns && n == Begun(w, a.connect.value, c, a))
            && (spawns ==> BegunIn(more, a.connect.value))
  {
    var more := RepairLog(ps, w, plan, c, a);
    if plan in {CloseThenSpawn, SpawnThenClose} && a.connect.Some? {
      assert Begun(w, a.connect.value, c, a) in more;
    }
    hide Chain;
  }

  lemma RepairedAgrees(ps: Pass, w: Watched, plan: Plan, c: Context, a: Answers)
    requires plan != Wait && Agrees(ps)
    ensures Agrees(Repaired(ps, w, plan, c, a))
  {
    hide Agrees, Elems, Chain;
    var counted := ps.(repairs := ps.repairs + if w.forced then 0 else 1);
    CountedAgrees(ps, counted.repairs);
    CloseAgrees(counted, Chain(w));
    match plan
    case CloseNow =>
    case JoinSibling(_) =>
    case HandToSibling(other) => HandAgrees(counted, other, Chain(w));
    case CloseThenSpawn =>
      if a.connect.Some? {
        SpawnAgrees(CloseIds(counted, Chain(w)), Replacement(w, a.connect.value, [], c.now, a),
                    Begun(w, a.connect.value, c, a));
      }
    case SpawnThenClose =>
      if a.connect.Some? {
        SpawnAgrees(counted, Replacement(w, a.connect.value, Chain(w), c.now, a), Begun(w, a.connect.value, c, a));
      }
  }

  lemma CountedAgrees(ps: Pass, n: nat)
    requires Agrees(ps)
    ensures Agrees(ps.(repairs := n))
  {
  }

  lemma HandAgrees(ps: Pass, other: SocketId, chain: seq<SocketId>)
    requires Agrees(ps)
    ensures Agrees(Hand(ps, other, chain))
  {
    CloseAgrees(ps, chain);
  }

  lemma RepairTold(ps: Pass, verdict: Verdict, c: Context, a: Answers, tok: SocketId -> int)
    requires Ready(ps, c, a, tok) && Agrees(ps) && PlanAt(ps, verdict, c, a) != Wait
    requires forall e | e in Members(ps) :: Told(e, ps.log)
    ensures var q := Repaired(Take(ps), ps.watched[ps.idx], PlanAt(ps, verdict, c, a), c, a);
            Agrees(q) && forall e | e in Members(q) :: Told(e, q.log)
  {
    var w, plan := ps.watched[ps.idx], PlanAt(ps, verdict, c, a);
    var q := Repaired(Take(ps), w, plan, c, a);
    var more := RepairLog(Take(ps), w, plan, c, a);
    RepairedLog(Take(ps), w, plan, c, a);
    RepairNotes(Take(ps), w, plan, c, a);
    TakenAgrees(ps, Take(ps));
    RepairedAgrees(Take(ps), w, plan, c, a);
    SwapRemoveElems(ps.watched, ps.idx);
    RepairedMembers(Take(ps), w, plan, c, a);
    hide PlanAt, Repaired, RepairLog, Told, Chain;
    forall e | e in Members(q) ensures (exists f | f in Members(ps) :: SameClocks(e, f)) || Fresh(e, more) {
      if e in Members(Take(ps)) {
        assert e in Members(ps) && SameClocks(e, e);
      } else if plan.HandToSibling? {
        var f :| f in Members(Take(ps)) && f.id == plan.other && e == f.(supersedes := f.supersedes + Chain(w));
        assert f in Members(ps) && SameClocks(e, f);
      }
    }
    DescendsTold(ps, q, more);
  }

  lemma PlainTold(ps: Pass, step: Step, verdict: Verdict, c: Context, a: Answers)
    requires ps.idx < |ps.watched| && Accounted(ps) && Agrees(ps)
    requires step != Repair || PlanAt(ps, verdict, c, a) == Wait
    requires forall e | e in Members(ps) :: Told(e, ps.log) || (e == ps.watched[ps.idx] && step == Drop)
    ensures var q := Stepped(ps, step, verdict, c, a);
            Agrees(q) && forall e | e in Members(q) :: Told(e, q.log)
  {
    var q, w := Stepped(ps, step, verdict, c, a), ps.watched[ps.idx];
    hide PlanAt, Told, Agrees, Elems;
    if step == Drop {
      TakeTold(ps, Release(Take(ps), w.id), w.supersedes);
    } else if step == Abandon {
      TakeTold(ps, Take(ps), [w.id] + w.supersedes);
    } else {
      StayTold(ps, step, verdict, c, a);
    }
  }

  lemma StayTold(ps: Pass, step: Step, verdict: Verdict, c: Context, a: Answers)
    requires ps.idx < |ps.watched| && Accounted(ps) && Agrees(ps)
    requires step !in {Drop, Abandon} && (step == Repair ==> PlanAt(ps, verdict, c, a) == Wait)
    requires forall e | e in Members(ps) :: Told(e, ps.log)
    ensures var q := Stepped(ps, step, verdict, c, a);
            Agrees(q) && forall e | e in Members(q) :: Told(e, q.log)
  {
    hide PlanAt, Told, Agrees, Elems, Stepped, Members, SameMember, Net;
    var q := Stepped(ps, step, verdict, c, a);
    PlainStepLogsNothing(ps, step, verdict, c, a);
    TakenAgrees(ps, q);
    PlainStepShrinks(ps, step, verdict, c, a);
    forall e | e in Members(q) ensures Told(e, q.log) {
      var f :| f in Members(ps) && SameMember(e, f) && SameClocks(e, f);
      ToldOf(e, f, ps.log);
    }
  }

  lemma PlainStepLogsNothing(ps: Pass, step: Step, verdict: Verdict, c: Context, a: Answers)
    requires ps.idx < |ps.watched| && step !in {Drop, Abandon}
    requires step == Repair ==> PlanAt(ps, verdict, c, a) == Wait
    ensures var q := Stepped(ps, step, verdict, c, a);
            q.log == ps.log && q.born == ps.born && q.closed == ps.closed
  {
    hide PlanRepair;
  }

  lemma TakeTold(ps: Pass, t: Pass, ids: seq<SocketId>)
    requires ps.idx < |ps.watched| && Accounted(ps) && Agrees(ps)
    requires t == Take(ps).(released := t.released)
    requires forall e | e in Members(ps) :: Told(e, ps.log) || e == ps.watched[ps.idx]
    ensures Agrees(CloseIds(t, ids)) && forall e | e in Members(CloseIds(t, ids)) :: Told(e, CloseIds(t, ids).log)
  {
    SwapRemoveElems(ps.watched, ps.idx);
    TakenAgrees(ps, t);
    CloseAgrees(t, ids);
    hide Told, Agrees, Elems, Net;
    forall e | e in Members(CloseIds(t, ids)) ensures Told(e, CloseIds(t, ids).log) {
      assert e in Members(Take(ps));
      TakenIsOut(ps, e);
      ToldStays(e, ps.log, EndsOf(ids));
    }
  }

  lemma TakenAgrees(ps: Pass, t: Pass)
    requires Agrees(ps) && t.log == ps.log && t.born == ps.born && t.closed == ps.closed
    ensures Agrees(t)
  {
  }

  /** Every look keeps every watched member's clocks as the journal tells them. */
  lemma LookClocks(ps: Pass, c: Context, a: Answers, tok: SocketId -> int)
    requires PassInv(ps, c.now, tok) && Faithful(ps, c, a, tok) && Clocked(ps)
    ensures Clocked(Look(ps, c, a))
  {
    if ps.idx < |ps.watched| && ps.watched[ps.idx].notBefore <= c.now {
      var w, at := ps.watched[ps.idx], At(ps, a);
      var j := Judged(at, c, a);
      SameButFlight(ps, at, c.now, tok);
      JudgedTold(at, c, a);
      JudgedKeeps(ps, c, a, tok);
      JudgedMember(at, c, a);
      GoneDrops(at, c, a);
      hide Judged, Linger, VerdictAt, Told, Agrees, Stepped, Repaired, PlanRepair, Net;
      if j.1 == Repair && PlanAt(j.0, VerdictAt(w, c), c, a) != Wait {
        RepairTold(j.0, VerdictAt(w, c), c, a, tok);
      } else {
        PlainTold(j.0, j.1, VerdictAt(w, c), c, a);
      }
    }
  }

  lemma {:induction false} LooksClocked(ps: Pass, c: Context, answers: seq<Answers>, tok: SocketId -> int)
    requires PassInv(ps, c.now, tok) && FaithfulPass(ps, c, answers, tok) && Clocked(ps)
    ensures Clocked(Looks(ps, c, answers))
  {
    hide PassInv, Look, Faithful, FaithfulPass, Clocked;
    if answers != [] {
      var n := |answers| - 1;
      FaithfulPrefix(ps, c, answers, tok, n);
      LooksKeep(ps, c, answers[..n], tok);
      LooksClocked(ps, c, answers[..n], tok);
      LookClocks(Looks(ps, c, answers[..n]), c, answers[n], tok);
    }
  }

  lemma GoneDrops(ps: Pass, c: Context, a: Answers)
    requires ps.idx < |ps.watched|
    ensures VerdictAt(ps.watched[ps.idx], c) == Gone ==> Judged(ps, c, a).1 == Drop
  {
    hide VerdictAt;
  }

  // ── Time in the journal ──

  lemma TimelyAppend(log: seq<Note>, more: seq<Note>, was: nat, now: nat)
    requires Timely(log, was) && was <= now && AllNow(more, now)
    ensures Timely(log + more, now)
  {
    var all := log + more;
    forall i, j | 0 <= i < j < |all| && Timed(all[i]) && Timed(all[j]) ensures all[i].at <= all[j].at {
      if i < |log| { assert all[i] in log; } else { assert all[i] in more; }
      if j < |log| { assert all[j] in log; } else { assert all[j] in more; }
    }
  }

  lemma StepLog(ps: Pass, step: Step, verdict: Verdict, c: Context, a: Answers) returns (more: seq<Note>)
    requires ps.idx < |ps.watched|
    ensures Stepped(ps, step, verdict, c, a).log == ps.log + more && AllNow(more, c.now) && Unread(more)
  {
    var w := ps.watched[ps.idx];
    if step == Repair && PlanAt(ps, verdict, c, a) != Wait {
      more := RepairLog(Take(ps), w, PlanAt(ps, verdict, c, a), c, a);
      RepairedLog(Take(ps), w, PlanAt(ps, verdict, c, a), c, a);
      RepairNotes(Take(ps), w, PlanAt(ps, verdict, c, a), c, a);
    } else {
      more :=
        if step == Drop then EndsOf(w.supersedes)
        else if step == Abandon then EndsOf([w.id] + w.supersedes)
        else [];
    }
    hide PlanRepair, Repaired, RepairLog;
  }

  /** What a look adds to the journal, all of it made now: one reading, of a member that is due,
      closes, and at most one member begun. */
  lemma LookLog(ps: Pass, c: Context, a: Answers) returns (more: seq<Note>)
    ensures Look(ps, c, a).log == ps.log + more && AllNow(more, c.now)
  {
    more := [];
    if ps.idx < |ps.watched| && ps.watched[ps.idx].notBefore <= c.now {
      var w, at := ps.watched[ps.idx], At(ps, a);
      var j := Judged(at, c, a);
      hide Judged, Stepped, VerdictAt, Look, AllNow;
      var first := JudgedLog(at, c, a);
      var steps := StepLog(j.0, j.1, VerdictAt(w, c), c, a);
      more := first + steps;
      LookIsStep(ps, c, a);
      AllNowBoth(first, steps, c.now);
    }
  }

  lemma JudgedLog(ps: Pass, c: Context, a: Answers) returns (more: seq<Note>)
    requires ps.idx < |ps.watched|
    ensures Judged(ps, c, a).0.log == ps.log + more && AllNow(more, c.now)
  {
    var w := ps.watched[ps.idx];
    JudgedMember(ps, c, a);
    more := [Judging(w, c, a)] + EndsOf(Linger(w, VerdictAt(w, c), c.now, a).1);
    hide Judged, Linger, VerdictAt;
  }

  lemma AllNowBoth(first: seq<Note>, more: seq<Note>, now: nat)
    requires AllNow(first, now) && AllNow(more, now)
    ensures AllNow(first + more, now)
  {
  }

  lemma LookIsStep(ps: Pass, c: Context, a: Answers)
    requires ps.idx < |ps.watched| && ps.watched[ps.idx].notBefore <= c.now
    ensures var j := Judged(At(ps, a), c, a);
            Look(ps, c, a) == Stepped(j.0, j.1, VerdictAt(ps.watched[ps.idx], c), c, a)
  {
    hide Judged, Stepped, VerdictAt;
  }
}
