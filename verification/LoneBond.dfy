/** A bond of one whose every member strands: a run in which the peer lists two, three and four
    members of it at once, and then none. */
module LoneBond {
  import opened SrtTypes
  import opened Watch
  import opened RepairPlan
  import opened CheckGroup
  import opened PassSafety
  import opened GroupRuns
  import opened GroupTheorems

  const TOKEN := 7
  const OTHER_TOKEN := 8

  /** Ids from 100 on are of the other endpoint, where there is one. */
  function Token(id: SocketId): int { if id >= 100 then OTHER_TOKEN else TOKEN }

  const ENDPOINT := Endpoint(0, TOKEN)

  const BOND := [Joined(1, ENDPOINT, 3000)]

  /** Members 1 to `n`. */
  function Ids(n: nat): seq<SocketId> { seq(n, i => i + 1) }

  /** Every member so far is connected, and listed Pending. */
  function Rows(n: nat): seq<Row> {
    seq(n, i => Row(i + 1, TOKEN, Pending, Connected))
  }

  function AllUp(n: nat): Sockets { map x | x in Ids(n) :: Connected }

  /** What libsrt answers while there are `n` members: a reconnect leaves the next one. */
  function Told(n: nat): Answers {
    Answers(AllUp(n), AllUp(n), AllUp(n), {}, 0, 0, Some(n + 1), 3000)
  }

  function PassAt(n: nat, now: nat): Event {
    Check(Context(Rows(n), now, false), AllUp(n), [Told(n)])
  }

  /** Round `n` starts here: each round reads its newest member stranded, twice, 500 ms apart. */
  function RoundTime(n: nat): nat { 500 * n }

  /** The rounds before round `n`. */
  function Rounds(n: nat): seq<Event> {
    if n <= 1 then []
    else Rounds(n - 1) + [PassAt(n - 1, RoundTime(n - 1))] + [PassAt(n - 1, RoundTime(n - 1) + STRANDED_MEMBER_GRACE)]
  }

  /** Member `n` alone is watched; it supersedes all before it, and none of them is closed. `others`
      came before, of the other endpoint, and are gone. */
  ghost predicate Lone(g: Group, n: nat, since: Option<nat>, others: seq<SocketId>) {
    && 1 <= n <= MAX_STRANDED_REPAIRS + 1 && g.pass.spawned == [] && g.pass.idx == 0
    && |g.pass.watched| == 1 && Newest(g.pass.watched[0], n) && g.pass.watched[0].strandedSince == since
    && g.pass.closed == [] && g.pass.born == others + Ids(n) && g.pass.flight == Elems(Ids(n))
    && (forall x | x in others :: x >= 100)
    && g.now <= RoundTime(n)
  }

  ghost predicate Newest(w: Watched, n: nat) {
    && n >= 1 && w.id == n && w.endpoint == ENDPOINT && w.supersedes == Ids(n - 1) && w.repairs == n - 1
    && w.notBefore <= RoundTime(n) && !w.forced
  }

  lemma IdsAre(n: nat)
    ensures forall x :: x in Ids(n) <==> 1 <= x <= n
    ensures n >= 1 ==> Ids(n - 1) + [n] == Ids(n)
    ensures forall r | r in Rows(n) ::
              1 <= r.id <= n && r.token == TOKEN && r.member == Pending && r.listed == Connected
    ensures forall x | 1 <= x <= n :: Row(x, TOKEN, Pending, Connected) in Rows(n)
  {
    forall x | 1 <= x <= n ensures x in Ids(n) && Row(x, TOKEN, Pending, Connected) in Rows(n) {
      assert Ids(n)[x - 1] == x && Rows(n)[x - 1] == Row(x, TOKEN, Pending, Connected);
    }
  }

  lemma ReadsStranded(w: Watched, n: nat, now: nat)
    requires Newest(w, n) && w.live == Connected
    ensures VerdictAt(w, Context(Rows(n), now, false)) == Stranded
  {
    IdsAre(n);
    assert Row(n, TOKEN, Pending, Connected) in Rows(n);
    var found := FindRow(Rows(n), n);
    assert found.Some? && found.value in Rows(n);
    hide Rows, FindRow;
  }

  /** The newest member overlaps while budget is left, and takes all down once it is spent. */
  lemma LonePlan(w: Watched, n: nat, now: nat)
    requires Newest(w, n)
    ensures PlanRepair(w, false, [w], [], Rows(n), now, Told(n)) ==
            if n <= MAX_STRANDED_REPAIRS then SpawnThenClose else CloseNow
  {
    IdsAre(n);
    assert Chain(w) == Ids(n);
    assert [w] + [] == [w];
    assert MemberInFlight(Rows(n), TOKEN, Chain(w), AllUp(n)).None?;
    hide FindRow;
  }

  lemma OneLook(ps: Pass, c: Context, a: Answers)
    ensures Looks(ps, c, [a]) == Look(ps, c, a)
  {
    assert [a][..0] == [];
    hide Look;
  }

  /** The answers are ones libsrt may give. */
  lemma LoneIsPlausible(g: Group, n: nat, since: Option<nat>, others: seq<SocketId>, now: nat)
    requires Lone(g, n, since, others) && g.now <= now
    ensures Plausible(g, PassAt(n, now), Token)
  {
    var start, c := Begin(g.pass, AllUp(n)), Context(Rows(n), now, false);
    IdsAre(n);
    assert [Told(n)][..0] == [];
    assert Looks(start, c, []) == start;
    forall x | x in start.flight
      ensures exists r | r in c.rows :: r.id == x && InFlight(r.member, SockState(AllUp(n), x))
    {
      assert Row(x, TOKEN, Pending, Connected) in c.rows;
    }
    hide Rows, Ids;
    assert Faithful(start, c, Told(n), Token);
  }

  ghost function Struck(w: Watched, now: nat): Watched {
    w.(live := Connected, strandedSince := Some(w.strandedSince.GetOr(now)))
  }

  /** A look at the lone member judges it stranded, and takes that step. */
  lemma LoneLook(at: Pass, w: Watched, n: nat, now: nat) returns (ps: Pass)
    requires at.idx == 0 && at.watched == [w.(live := Connected)] && at.spawned == [] && at.closed == []
    requires Newest(w, n) && now >= RoundTime(n)
    ensures ps.idx == 0 && ps.watched == [Struck(w, now)] && ps.spawned == [] && ps.closed == []
    ensures ps.born == at.born && ps.flight == at.flight
    ensures var since := w.strandedSince;
            var step := if since.Some? && now - since.value >= STRANDED_MEMBER_GRACE then Repair else Keep;
            Look(at, Context(Rows(n), now, false), Told(n)) ==
            Stepped(ps, step, Stranded, Context(Rows(n), now, false), Told(n))
  {
    var c, a := Context(Rows(n), now, false), Told(n);
    var v := w.(live := Connected);
    IdsAre(n);
    ReadsStranded(v, n, now);
    var j := Judged(At(at, a), c, a);
    assert Linger(v, Stranded, now, a) == (v, []);
    assert EndsOf([]) == [];
    hide VerdictAt, Linger, Stepped, Rows;
    assert j.0.watched == [Struck(w, now)];
    assert j.0.flight == at.flight;
    ps := j.0;
  }

  /** A pass at the lone member judges it stranded, and takes that step alone. */
  lemma LonePass(g: Group, n: nat, since: Option<nat>, others: seq<SocketId>, now: nat) returns (ps: Pass)
    requires Lone(g, n, since, others) && now >= RoundTime(n)
    ensures ps.idx == 0 && ps.watched == [Struck(g.pass.watched[0], now)] && ps.spawned == [] && ps.closed == []
    ensures ps.born == g.pass.born && ps.flight == g.pass.flight
    ensures var step := if since.Some? && now - since.value >= STRANDED_MEMBER_GRACE then Repair else Keep;
            Happen(g, PassAt(n, now)) ==
            Group(End(Stepped(ps, step, Stranded, Context(Rows(n), now, false), Told(n))), g.app, now)
  {
    var c, a := Context(Rows(n), now, false), Told(n);
    var start := Begin(g.pass, AllUp(n));
    var w := g.pass.watched[0];
    IdsAre(n);
    assert start.watched == [w.(live := Connected)];
    assert AnyDue(g.pass.watched, now) by { assert w in g.pass.watched; }
    OneLook(start, c, a);
    ps := LoneLook(start, w, n, now);
    hide Stepped, Rows, Look, Struck;
  }

  /** First reading: the grace starts. */
  lemma FirstReading(g: Group, n: nat, others: seq<SocketId>)
    requires Lone(g, n, None, others)
    ensures Lone(Happen(g, PassAt(n, RoundTime(n))), n, Some(RoundTime(n)), others)
  {
    var _ := LonePass(g, n, None, others, RoundTime(n));
    hide Happen, Ids, Rows;
  }

  /** Repairing it leaves its replacement alone, or no one. */
  lemma LoneStep(ps: Pass, w: Watched, n: nat, now: nat)
    requires Newest(w, n) && ps.idx == 0 && ps.watched == [w] && ps.spawned == [] && ps.closed == []
    ensures var q := End(Stepped(ps, Repair, Stranded, Context(Rows(n), now, false), Told(n)));
            && q.spawned == [] && q.idx == 0
            && (n <= MAX_STRANDED_REPAIRS ==>
                  && q.watched == [Replacement(w, n + 1, Ids(n), now, Told(n))] && q.closed == []
                  && q.born == ps.born + [n + 1] && q.flight == ps.flight + {n + 1})
            && (n > MAX_STRANDED_REPAIRS ==> q.watched == [] && q.closed == Ids(n))
  {
    LonePlan(w, n, now);
    IdsAre(n);
    assert Chain(w) == Ids(n);
    assert SwapRemove([w], 0) == [];
    hide PlanRepair, Rows, Ids, Spawned;
  }

  /** Second reading: the next member, or, the budget spent, the end of them all. */
  lemma SecondReading(g: Group, n: nat, others: seq<SocketId>)
    requires Lone(g, n, Some(RoundTime(n)), others)
    ensures var t := Happen(g, PassAt(n, RoundTime(n) + STRANDED_MEMBER_GRACE));
            if n <= MAX_STRANDED_REPAIRS then Lone(t, n + 1, None, others)
            else t.pass.watched == [] && t.pass.closed == Ids(n)
  {
    var now := RoundTime(n) + STRANDED_MEMBER_GRACE;
    var w := Struck(g.pass.watched[0], now);
    var ps := LonePass(g, n, Some(RoundTime(n)), others, now);
    LoneStep(ps, w, n, now);
    if n <= MAX_STRANDED_REPAIRS {
      hide Stepped, CheckPass, Rows, Ids, Happen, PassAt;
      NextIsLone(Happen(g, PassAt(n, now)), w, n, others, now);
    }
    hide Stepped, CheckPass, Rows, Ids, Lone;
  }

  lemma NextIsLone(g: Group, w: Watched, n: nat, others: seq<SocketId>, now: nat)
    requires 1 <= n <= MAX_STRANDED_REPAIRS && (forall x | x in others :: x >= 100)
    requires Newest(w, n) && now == RoundTime(n + 1) && g.now == now
    requires g.pass.spawned == [] && g.pass.idx == 0 && g.pass.closed == []
    requires g.pass.watched == [Replacement(w, n + 1, Ids(n), now, Told(n))]
    requires g.pass.born == others + Ids(n) + [n + 1] && g.pass.flight == Elems(Ids(n)) + {n + 1}
    ensures Lone(g, n + 1, None, others)
  {
    IdsAre(n);
    IdsAre(n + 1);
    assert Elems(Ids(n)) + {n + 1} == Elems(Ids(n + 1));
    assert others + Ids(n) + [n + 1] == others + Ids(n + 1);
  }

  // ── The run ──

  lemma PlausibleAppend(g: Group, events: seq<Event>, e: Event)
    requires PlausibleRun(g, events, Token) && Plausible(Run(g, events), e, Token)
    ensures PlausibleRun(g, events + [e], Token) && Run(g, events + [e]) == Happen(Run(g, events), e)
  {
    var all := events + [e];
    assert all[..|events|] == events;
    forall k | 0 <= k < |all| ensures Plausible(Run(g, all[..k]), all[k], Token) {
      if k < |events| { assert all[..k] == events[..k]; }
    }
  }

  lemma {:induction false} RoundsHold(n: nat)
    requires 1 <= n <= MAX_STRANDED_REPAIRS + 1
    ensures PlausibleRun(Start(BOND, 0), Rounds(n), Token) && Lone(Run(Start(BOND, 0), Rounds(n)), n, None, [])
  {
    hide PlausibleRun, Run, Lone;
    if n == 1 {
      StartIsLone();
      assert Rounds(1) == [];
      StartRun(Start(BOND, 0));
    } else {
      RoundsHold(n - 1);
      FullRound(Start(BOND, 0), n - 1, Rounds(n - 1), []);
    }
  }

  lemma StartRun(g: Group)
    ensures PlausibleRun(g, [], Token) && Run(g, []) == g
  {
  }

  lemma FullRound(g: Group, n: nat, events: seq<Event>, others: seq<SocketId>)
    requires PlausibleRun(g, events, Token) && Lone(Run(g, events), n, None, others)
    ensures var more := events + [PassAt(n, RoundTime(n))] + [PassAt(n, RoundTime(n) + STRANDED_MEMBER_GRACE)];
            var t := Run(g, more);
            && PlausibleRun(g, more, Token)
            && if n <= MAX_STRANDED_REPAIRS then Lone(t, n + 1, None, others)
               else t.pass.watched == [] && t.pass.closed == Ids(n)
  {
    hide Plausible, PlausibleRun, Happen, Run, Lone;
    HalfRound(g, n, events, others);
    OtherHalf(g, n, events + [PassAt(n, RoundTime(n))], others);
  }

  lemma HalfRound(g: Group, n: nat, events: seq<Event>, others: seq<SocketId>)
    requires PlausibleRun(g, events, Token) && Lone(Run(g, events), n, None, others)
    ensures var more := events + [PassAt(n, RoundTime(n))];
            && PlausibleRun(g, more, Token)
            && Lone(Run(g, more), n, Some(RoundTime(n)), others)
  {
    hide Plausible, Happen, Lone;
    LoneTime(Run(g, events), n, None, others);
    LoneIsPlausible(Run(g, events), n, None, others, RoundTime(n));
    PlausibleAppend(g, events, PassAt(n, RoundTime(n)));
    FirstReading(Run(g, events), n, others);
  }

  lemma OtherHalf(g: Group, n: nat, events: seq<Event>, others: seq<SocketId>)
    requires PlausibleRun(g, events, Token) && Lone(Run(g, events), n, Some(RoundTime(n)), others)
    ensures var more := events + [PassAt(n, RoundTime(n) + STRANDED_MEMBER_GRACE)];
            var t := Run(g, more);
            && PlausibleRun(g, more, Token)
            && if n <= MAX_STRANDED_REPAIRS then Lone(t, n + 1, None, others)
               else t.pass.watched == [] && t.pass.closed == Ids(n)
  {
    hide Plausible, PlausibleRun, Happen, Run, Lone;
    LoneTime(Run(g, events), n, Some(RoundTime(n)), others);
    LoneIsPlausible(Run(g, events), n, Some(RoundTime(n)), others, RoundTime(n) + STRANDED_MEMBER_GRACE);
    PlausibleAppend(g, events, PassAt(n, RoundTime(n) + STRANDED_MEMBER_GRACE));
    SecondReading(Run(g, events), n, others);
  }

  lemma StartIsLone()
    ensures Lone(Start(BOND, 0), 1, None, [])
  {
    var g := Start(BOND, 0);
    assert Ids(1) == [1] && Ids(0) == [];
    assert g.pass.born == [1];
  }

  lemma LoneTime(g: Group, n: nat, since: Option<nat>, others: seq<SocketId>)
    requires Lone(g, n, since, others)
    ensures g.now <= RoundTime(n)
  {
  }

  lemma AllAreUp(n: nat)
    ensures forall x | 1 <= x <= n :: x in AllUp(n) && AllUp(n)[x] == Connected
  {
    IdsAre(n);
  }

  lemma BondIsGood()
    ensures GoodStart(BOND, Token)
  {
  }

  /** More members than the bond has: in round `n` of this run of a bond of one, up to the fourth,
      a pass reads `n` members CONNECTED, none of them closed. */
  lemma PeerListsMore(n: nat)
    requires 2 <= n <= MAX_STRANDED_REPAIRS + 1
    ensures var events := Rounds(n) + [PassAt(n, RoundTime(n))];
            && |BOND| == 1 && GoodRun(BOND, 0, events, Token)
            && (forall x | 1 <= x <= n :: x in AllUp(n) && AllUp(n)[x] == Connected)
            && Run(Start(BOND, 0), events).pass.closed == []
            && Run(Start(BOND, 0), events).pass.born == Ids(n)
  {
    RoundsHold(n);
    HalfRound(Start(BOND, 0), n, Rounds(n), []);
    assert [] + Ids(n) == Ids(n);
    BondIsGood();
    AllAreUp(n);
    hide Run, Rounds, Ids, Start, PlausibleRun, GoodStart, AllUp, PassAt;
  }

  /** Nor none: then a pass that reads all four CONNECTED closes all four. */
  lemma PeerListsNone()
    ensures var last := MAX_STRANDED_REPAIRS + 1;
            var events := Rounds(last) + [PassAt(last, RoundTime(last))] +
                          [PassAt(last, RoundTime(last) + STRANDED_MEMBER_GRACE)];
            && GoodRun(BOND, 0, events, Token)
            && (forall x | 1 <= x <= last :: x in AllUp(last) && AllUp(last)[x] == Connected)
            && Run(Start(BOND, 0), events).pass.closed == Ids(last)
            && Run(Start(BOND, 0), events).pass.watched == []
  {
    var last := MAX_STRANDED_REPAIRS + 1;
    RoundsHold(last);
    FullRound(Start(BOND, 0), last, Rounds(last), []);
    BondIsGood();
    AllAreUp(last);
    hide PlausibleRun, GoodStart, Run, Rounds, Lone;
  }
}
