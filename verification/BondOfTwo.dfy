/** A bond of two whose application asks for an endpoint again: two runs in which three members are
    open at once, one with an overlap no longer than the bond is, one with no overlap at all. */
module BondOfTwo {
  import opened SrtTypes
  import opened Watch
  import opened Journal
  import opened RepairPlan
  import opened CheckGroup
  import opened PassSafety
  import opened GroupRuns
  import opened GroupTheorems
  import opened Families
  import opened BondCount
  import opened LoneBond

  const OTHER := Endpoint(1, OTHER_TOKEN)

  const BOND_OF_TWO := [Joined(100, OTHER, 3000), Joined(1, ENDPOINT, 3000)]

  lemma BondOfTwoIsGood()
    ensures GoodStart(BOND_OF_TWO, Token)
  {
  }

  // ── A re-add joins an overlap ──

  function Quiet(): Answers { Told(1).(connect := None) }

  /** The other endpoint's member is gone, the first reading of member 1 stranded. */
  function OtherGone(): seq<Event> {
    [Fail({100}), Check(Context(Rows(1), RoundTime(1), false), AllUp(1), [Quiet(), Told(1)])]
  }

  /** The replacement is begun beside member 1, and the other endpoint is asked for again. */
  function Rejoined(): seq<Event> {
    OtherGone() + [PassAt(1, RoundTime(1) + STRANDED_MEMBER_GRACE)] + [AskOther()]
  }

  function AskOther(): Event {
    Add(OTHER, AddAnswers(true, Rows(2), AllUp(2), Some(101), RoundTime(2), 3000))
  }

  ghost function Second(): Group { Happen(Start(BOND_OF_TWO, 0), Fail({100})) }

  lemma SecondIs()
    ensures var ps := Second().pass;
            && ps.watched == [Spawned(100, OTHER, 0, 3000), Spawned(1, ENDPOINT, 0, 3000)] && ps.idx == 0
            && ps.spawned == [] && ps.closed == [] && ps.released == [] && ps.born == [100] + Ids(1)
            && ps.flight == Elems(Ids(1)) && Second().now == 0
  {
    var ps := Second().pass;
    assert Ids(1) == [1];
    assert ps.born == [100, 1];
  }

  /** The look at the member gone: it is dropped, and the last takes its place. */
  lemma FirstLookDrops(ps: Pass, now: nat)
    requires ps.idx == 0 && |ps.watched| == 2 && ps.watched[0].id == 100 && ps.watched[0].notBefore <= now
    requires ps.watched[0].supersedes == []
    ensures var q := Look(ps, Context(Rows(1), now, false), Quiet());
            && q.idx == 0 && q.watched == [ps.watched[1]] && q.spawned == ps.spawned && q.closed == ps.closed
            && q.born == ps.born && q.flight == ps.flight
  {
    IdsAre(1);
    assert FindRow(Rows(1), 100).None?;
    assert SwapRemove(ps.watched, 0) == [ps.watched[1]];
    assert EndsOf([]) == [];
  }

  lemma GonePass()
    ensures Lone(Happen(Second(), OtherGone()[1]), 1, Some(RoundTime(1)), [100])
  {
    var g, now := Second(), RoundTime(1);
    var c, a := Context(Rows(1), now, false), Told(1);
    var start := Begin(g.pass, AllUp(1));
    SecondIs();
    assert Ids(1) == [1] && Ids(0) == [];
    var w := Spawned(1, ENDPOINT, 0, 3000);
    assert start.watched[0].id == 100 && start.watched[1] == w.(live := Connected);
    assert AnyDue(g.pass.watched, now) by { assert w in g.pass.watched; }
    FirstLookDrops(start, now);
    var mid := Look(start, c, Quiet());
    assert [Quiet(), a][..1] == [Quiet()];
    OneLook(start, c, Quiet());
    assert Looks(start, c, [Quiet(), a]) == Look(mid, c, a);
    var ps := LoneLook(mid, w, 1, now);
    hide Look, Rows, AllUp, Ids;
  }

  lemma GoneIsPlausible()
    ensures Plausible(Second(), OtherGone()[1], Token)
  {
    var c, a := Context(Rows(1), RoundTime(1), false), Told(1);
    var start := Begin(Second().pass, AllUp(1));
    var answers := [Quiet(), a];
    SecondIs();
    FirstLookDrops(start, RoundTime(1));
    OneLook(start, c, Quiet());
    assert answers[..0] == [] && answers[..1] == [Quiet()];
    FaithfulAt(start, Quiet(), RoundTime(1));
    FaithfulAt(Look(start, c, Quiet()), a, RoundTime(1));
    hide Look, Faithful, Rows, AllUp, Ids, Second, Begin;
    forall k | 0 <= k < |answers| ensures Faithful(Looks(start, c, answers[..k]), c, answers[k], Token) {
      if k == 0 { assert Looks(start, c, []) == start; }
    }
  }

  /** Member 1 alone is in flight, and listed so. */
  lemma FaithfulAt(ps: Pass, a: Answers, now: nat)
    requires ps.closed == [] && ps.flight == Elems(Ids(1)) && ps.born == [100] + Ids(1)
    requires a == Told(1).(connect := a.connect)
    requires a.connect == None ||
             (a.connect == Some(2) && (ps.idx < |ps.watched| ==> ps.watched[ps.idx].endpoint == ENDPOINT))
    ensures Faithful(ps, Context(Rows(1), now, false), a, Token)
  {
    IdsAre(1);
    assert Ids(1) == [1];
    forall x | x in ps.flight
      ensures exists r | r in Rows(1) :: r.id == x && InFlight(r.member, SockState(AllUp(1), x))
    {
      assert Row(x, TOKEN, Pending, Connected) in Rows(1);
    }
    hide Rows;
  }

  lemma OtherGoneHolds()
    ensures PlausibleRun(Start(BOND_OF_TWO, 0), OtherGone(), Token)
    ensures Lone(Run(Start(BOND_OF_TWO, 0), OtherGone()), 1, Some(RoundTime(1)), [100])
  {
    var g := Start(BOND_OF_TWO, 0);
    GonePass();
    GoneIsPlausible();
    StartRun(g);
    hide PlausibleRun, Run, Lone;
    PlausibleAppend(g, [], Fail({100}));
    assert [] + [Fail({100})] == [Fail({100})];
    PlausibleAppend(g, [Fail({100})], OtherGone()[1]);
    assert [Fail({100})] + [OtherGone()[1]] == OtherGone();
  }

  /** With the overlap of 1 and 2 under way, the other endpoint's new member is the third. */
  lemma AskOtherAdds(g: Group)
    requires Lone(g, 2, None, [100])
    ensures Plausible(g, AskOther(), Token)
    ensures var t := Happen(g, AskOther()).pass;
            && t.closed == [] && t.flight == {1, 2, 101} && t.born == [100, 1, 2, 101]
            && (forall w | w in t.watched :: |w.supersedes| <= 1)
  {
    IdsAre(2);
    assert Ids(2) == [1, 2] && Ids(1) == [1];
    forall x | x in g.pass.flight
      ensures exists r | r in Rows(2) :: r.id == x && InFlight(r.member, SockState(AllUp(2), x))
    {
      assert Row(x, TOKEN, Pending, Connected) in Rows(2);
    }
    hide Rows;
    assert MemberInFlight(Rows(2), OTHER_TOKEN, [], AllUp(2)).None?;
  }

  lemma LabelsOfBorn(ps: Pass, a: SocketId, b: SocketId)
    requires a in ps.born && b in ps.born && Token(a) == TOKEN && Token(b) == OTHER_TOKEN
    ensures Bond(ps, Token) == {TOKEN, OTHER_TOKEN} && |Bond(ps, Token)| == 2
  {
    assert a in Elems(ps.born) && b in Elems(ps.born);
  }

  /** Three members of a bond of two are in flight, and no member supersedes more than one: a chain
      shorter than the bond does not keep the peer's list within it. */
  lemma ReAddJoinsOverlap()
    ensures var ps := Run(Start(BOND_OF_TWO, 0), Rejoined()).pass;
            && GoodRun(BOND_OF_TWO, 0, Rejoined(), Token)
            && ps.closed == [] && ps.flight == {1, 2, 101}
            && (forall w | w in ps.watched :: |w.supersedes| <= 1)
            && |Bond(ps, Token)| == 2
  {
    var g := Start(BOND_OF_TWO, 0);
    BondOfTwoIsGood();
    OtherGoneHolds();
    hide PlausibleRun, Plausible, Run, Lone, Happen, GoodStart, Bond;
    OtherHalf(g, 1, OtherGone(), [100]);
    var events := OtherGone() + [PassAt(1, RoundTime(1) + STRANDED_MEMBER_GRACE)];
    AskOtherAdds(Run(g, events));
    PlausibleAppend(g, events, AskOther());
    var ps := Run(g, Rejoined()).pass;
    LabelsOfBorn(ps, 1, 100);
  }

  // ── A re-add beside a member listed Broken ──

  const BROKEN_ROWS := [Row(1, TOKEN, MemberStatus.Broken, Connected), Row(100, OTHER_TOKEN, Running, Connected)]
  const BOTH_UP: Sockets := map[1 := Connected, 100 := Connected]

  function AskAgain(): Event { Add(ENDPOINT, AddAnswers(true, BROKEN_ROWS, BOTH_UP, Some(2), 0, 3000)) }

  lemma BrokenRun()
    ensures PlausibleRun(Start(BOND_OF_TWO, 0), [Fail({1}), AskAgain()], Token)
    ensures var ps := Run(Start(BOND_OF_TWO, 0), [Fail({1}), AskAgain()]).pass;
            && ps.closed == [] && ps.born == [100, 1, 2] && ps.flight == {100, 2}
            && (forall n | n in ps.log :: n.Begins? && n.chain == [])
  {
    var g := Start(BOND_OF_TWO, 0);
    var t := Happen(g, Fail({1}));
    assert g.pass.born == [100, 1];
    assert t.pass.flight == {100};
    assert MemberInFlight(BROKEN_ROWS, TOKEN, [], BOTH_UP).None?;
    assert BROKEN_ROWS[1] in BROKEN_ROWS;
    StartRun(g);
    assert Plausible(t, AskAgain(), Token);
    var q := Happen(t, AskAgain()).pass;
    assert q.closed == [] && q.born == [100, 1, 2] && q.flight == {100, 2};
    assert forall n | n in q.log :: n.Begins? && n.chain == [];
    hide Plausible, PlausibleRun, Run, Happen;
    PlausibleAppend(g, [], Fail({1}));
    assert [] + [Fail({1})] == [Fail({1})];
    PlausibleAppend(g, [Fail({1})], AskAgain());
    assert [Fail({1})] + [AskAgain()] == [Fail({1}), AskAgain()];
  }

  /** Members 1, listed Broken on a connected socket, and 100 read CONNECTED; member 1's endpoint is
      asked for again, which member 2 answers: three open members of a bond of two, and no member
      has taken over from another. */
  lemma ReAddBesideBroken()
    ensures var events := [Fail({1}), AskAgain()];
            var ps := Run(Start(BOND_OF_TWO, 0), events).pass;
            && GoodRun(BOND_OF_TWO, 0, events, Token)
            && ps.closed == [] && ps.born == [100, 1, 2]
            && SockState(BOTH_UP, 1) == Connected && SockState(BOTH_UP, 100) == Connected
            && |Bond(ps, Token)| == 2 && (forall i: nat :: !TakesOver(ps.log, i))
  {
    var ps := Run(Start(BOND_OF_TWO, 0), [Fail({1}), AskAgain()]).pass;
    BondOfTwoIsGood();
    BrokenRun();
    hide PlausibleRun, Run, GoodStart, Bond;
    LabelsOfBorn(ps, 1, 100);
    forall i: nat ensures !TakesOver(ps.log, i) {
      if i < |ps.log| { assert ps.log[i] in ps.log; }
    }
  }
}
