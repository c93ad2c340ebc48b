/** How many members the peer lists, counted against the bond, in every reachable state. */
module BondCount {
  import opened SrtTypes
  import opened Watch
  import opened Journal
  import opened RepairPlan
  import opened CheckGroup
  import opened GroupLaws
  import opened PassSafety
  import opened Clocks
  import opened GroupRuns
  import opened GroupTheorems
  import opened Families
  import opened RunClocks

  // ── Counting a set by a label ──

  ghost function Labels(p: set<SocketId>, tok: SocketId -> int): set<int> { set x | x in p :: tok(x) }

  ghost predicate Distinct(s: seq<SocketId>) { forall i, j | 0 <= i < j < |s| :: s[i] != s[j] }

  /** `x` comes before `y` in `s`. */
  ghost predicate Earlier(s: seq<SocketId>, x: SocketId, y: SocketId) {
    exists i, j | 0 <= i < j < |s| :: s[i] == x && s[j] == y
  }

  /** Those of `p` that share their label with a later one. */
  ghost function Doubled(s: seq<SocketId>, p: set<SocketId>, tok: SocketId -> int): set<SocketId> {
    set x | x in p && exists y | y in p :: Earlier(s, x, y) && tok(x) == tok(y)
  }

  lemma EarlierTail(s: seq<SocketId>, x: SocketId, y: SocketId)
    requires s != [] && x != s[0]
    ensures Earlier(s, x, y) <==> Earlier(s[1..], x, y)
  {
    if Earlier(s, x, y) {
      var i, j :| 0 <= i < j < |s| && s[i] == x && s[j] == y;
      assert s[1..][i - 1] == x && s[1..][j - 1] == y;
    }
    if Earlier(s[1..], x, y) {
      var i, j :| 0 <= i < j < |s| - 1 && s[1..][i] == x && s[1..][j] == y;
      assert s[i + 1] == x && s[j + 1] == y;
    }
  }

  lemma FirstIsEarlier(s: seq<SocketId>, y: SocketId)
    requires s != [] && Distinct(s)
    ensures Earlier(s, s[0], y) <==> y in s[1..]
    ensures !Earlier(s, y, s[0])
  {
    if y in s[1..] {
      var j :| 0 <= j < |s| - 1 && s[1..][j] == y;
      assert s[j + 1] == y;
    }
    if Earlier(s, s[0], y) {
      var i, j :| 0 <= i < j < |s| && s[i] == s[0] && s[j] == y;
      assert s[1..][j - 1] == y;
    }
  }

  lemma DoubledTail(s: seq<SocketId>, p: set<SocketId>, tok: SocketId -> int)
    requires s != [] && Distinct(s) && (forall x | x in p :: x in s)
    ensures var rest := p - {s[0]};
            && (forall x | x in rest :: x in s[1..])
            && (forall x | x in rest :: x in Doubled(s, p, tok) <==> x in Doubled(s[1..], rest, tok))
            && (s[0] in Doubled(s, p, tok) <==> s[0] in p && tok(s[0]) in Labels(rest, tok))
  {
    var z, rest := s[0], p - {s[0]};
    forall x | x in rest ensures x in s[1..] {
      var i :| 0 <= i < |s| && s[i] == x;
      assert s[1..][i - 1] == x;
    }
    forall x, y | x in rest ensures Earlier(s, x, y) <==> Earlier(s[1..], x, y) { EarlierTail(s, x, y); }
    forall x ensures (Earlier(s, z, x) <==> x in s[1..]) && !Earlier(s, x, z) { FirstIsEarlier(s, x); }
    hide Earlier, Distinct;
    forall x | x in rest ensures x in Doubled(s, p, tok) <==> x in Doubled(s[1..], rest, tok) {
      if x in Doubled(s, p, tok) {
        var y :| y in p && Earlier(s, x, y) && tok(x) == tok(y);
        assert y in rest && Earlier(s[1..], x, y);
      }
    }
    if z in Doubled(s, p, tok) {
      var y :| y in p && Earlier(s, z, y) && tok(z) == tok(y);
      assert y in rest;
    }
    if z in p && tok(z) in Labels(rest, tok) {
      var y :| y in rest && tok(y) == tok(z);
      assert Earlier(s, z, y);
    }
  }

  /** A set has as many members as labels, and one more for each that is doubled. */
  lemma {:induction false} CountDoubled(s: seq<SocketId>, p: set<SocketId>, tok: SocketId -> int)
    requires Distinct(s) && (forall x | x in p :: x in s)
    ensures |p| == |Labels(p, tok)| + |Doubled(s, p, tok)|
  {
    if s == [] {
      forall x ensures x !in p { assert x in p ==> x in s; }
      assert p == {};
      assert Labels(p, tok) == {} && Doubled(s, p, tok) == {};
    } else {
      var z, rest := s[0], p - {s[0]};
      DoubledTail(s, p, tok);
      CountDoubled(s[1..], rest, tok);
      CountStep(z, p, tok, Doubled(s, p, tok), Doubled(s[1..], rest, tok));
    }
  }

  lemma CountStep(z: SocketId, p: set<SocketId>, tok: SocketId -> int, d: set<SocketId>, was: set<SocketId>)
    requires var rest := p - {z};
             && d <= p && was <= rest && (forall x | x in rest :: x in d <==> x in was)
             && (z in d <==> z in p && tok(z) in Labels(rest, tok))
             && |rest| == |Labels(rest, tok)| + |was|
    ensures |p| == |Labels(p, tok)| + |d|
  {
    var rest := p - {z};
    WithOneMore(p, rest, z);
    WithOneMore(d, was, z);
    if z in p { LabelsOfOneMore(p, z, tok); } else { assert p == rest; }
    hide Labels;
  }

  lemma WithOneMore(a: set<SocketId>, b: set<SocketId>, z: SocketId)
    requires z !in b && (forall x | x != z :: x in a <==> x in b)
    ensures |a| == |b| + if z in a then 1 else 0
  {
    forall x ensures x in a - {z} <==> x in b {
      if x != z { assert x in a <==> x in b; }
    }
    assert a - {z} == b;
    if z in a { assert a == b + {z}; } else { assert a == b; }
  }

  lemma LabelsOfOneMore(p: set<SocketId>, z: SocketId, tok: SocketId -> int)
    requires z in p
    ensures |Labels(p, tok)| == |Labels(p - {z}, tok)| + if tok(z) in Labels(p - {z}, tok) then 0 else 1
  {
    assert Labels(p, tok) == Labels(p - {z}, tok) + {tok(z)};
  }

  // ── The bond ──

  /** The endpoints the application has asked for: those of the members spawned. */
  ghost function Bond(ps: Pass, tok: SocketId -> int): set<int> { Labels(Elems(ps.born), tok) }

  /** Of the members the peer lists, those beside a later one that replaces it, by one watched
      member's chain; or beside a later one of an endpoint asked for again, one of the two failed. */
  ghost function Spare(ps: Pass, listed: set<SocketId>, tok: SocketId -> int): set<SocketId> {
    set x | x in listed && exists y | y in listed :: Earlier(ps.born, x, y) && Beside(ps, x, y, tok)
  }

  ghost predicate Beside(ps: Pass, x: SocketId, y: SocketId, tok: SocketId -> int) {
    || Together(ps, x, y)
    || (tok(x) == tok(y) && (x !in ps.flight || y !in ps.flight) && AskedAgain(ps.log, tok(x), tok))
  }

  /** The endpoints with no member listed. */
  ghost function Absent(ps: Pass, listed: set<SocketId>, tok: SocketId -> int): set<int> {
    Bond(ps, tok) - Labels(listed, tok)
  }

  lemma EarlierDiffers(s: seq<SocketId>, x: SocketId, y: SocketId)
    requires Distinct(s) && Earlier(s, x, y)
    ensures x != y
  {
  }

  lemma {:induction false} DistinctBorn(s: seq<SocketId>)
    requires forall x :: multiset(s)[x] <= 1
    ensures Distinct(s)
  {
    if s != [] {
      var n := |s| - 1;
      var last := s[n];
      assert multiset(s)[last] <= 1;
      assert s == s[..n] + [last];
      forall x ensures multiset(s[..n])[x] <= 1 { assert multiset(s)[x] <= 1; }
      DistinctBorn(s[..n]);
      assert last !in multiset(s[..n]);
      forall i | 0 <= i < n ensures s[i] != last { assert s[..n][i] in multiset(s[..n]); }
    }
  }

  /** In a chain tokens agree; so the spare are just those doubled. */
  lemma SpareIsDoubled(ps: Pass, now: nat, listed: set<SocketId>, tok: SocketId -> int)
    requires PassInv(ps, now, tok) && OneFamily(ps, tok) && (forall x | x in listed :: Open(ps, x))
    ensures Spare(ps, listed, tok) == Doubled(ps.born, listed, tok)
  {
    DistinctBorn(ps.born);
    TogetherTokens(ps, tok);
    hide Accounted, FreshlySpawned, TokensOk, AskedFor, AskedAgain, Together, Distinct;
    forall x, y | x in listed && y in listed && Earlier(ps.born, x, y)
      ensures Beside(ps, x, y, tok) <==> tok(x) == tok(y)
    {
      EarlierDiffers(ps.born, x, y);
    }
    hide Beside, Earlier;
  }

  lemma TogetherTokens(ps: Pass, tok: SocketId -> int)
    requires TokensOk(Members(ps), tok)
    ensures forall x, y | Together(ps, x, y) :: tok(x) == tok(y)
  {
  }

  /** In every reachable state, whatever open members the peer lists, they outnumber the bond if
      and only if more of them are spare than endpoints are absent. */
  lemma PeerListsMoreExactly(members: seq<Joined>, now: nat, events: seq<Event>, tok: SocketId -> int,
                             listed: set<SocketId>)
    requires GoodRun(members, now, events, tok)
    ensures var ps := Run(Start(members, now), events).pass;
            (forall x | x in listed :: Open(ps, x)) ==>
              && (|listed| > |Bond(ps, tok)| <==> |Spare(ps, listed, tok)| > |Absent(ps, listed, tok)|)
              && |listed| + |Absent(ps, listed, tok)| == |Bond(ps, tok)| + |Spare(ps, listed, tok)|
  {
    FamiliesHold(members, now, events, tok);
    StartHolds(members, now, tok);
    RunHolds(Start(members, now), events, tok);
    var g := Run(Start(members, now), events);
    hide Run, GoodRun;
    hide PassInv, Spare, Absent, Bond, OneFamily;
    if forall x | x in listed :: Open(g.pass, x) { CountListed(g.pass, 0, listed, tok); }
  }

  /** And at every look of every pass. */
  lemma PeerListsMoreInPass(members: seq<Joined>, now: nat, events: seq<Event>, tok: SocketId -> int,
                            n: nat, k: nat, listed: set<SocketId>)
    requires GoodRun(members, now, events, tok) && n < |events| && events[n].Check? && k < |events[n].answers|
    ensures var ps := LookOf(members, now, events, n, k);
            (forall x | x in listed :: Open(ps, x)) ==>
              && (|listed| > |Bond(ps, tok)| <==> |Spare(ps, listed, tok)| > |Absent(ps, listed, tok)|)
              && |listed| + |Absent(ps, listed, tok)| == |Bond(ps, tok)| + |Spare(ps, listed, tok)|
  {
    FamiliesHoldWithin(members, now, events, tok, n, k);
    LookHolds(members, now, events, tok, n, k);
    var ps := LookOf(members, now, events, n, k);
    hide LookOf, GoodRun, PassInv, Faithful, Clocked, Timely, Spare, Absent, Bond, OneFamily;
    if forall x | x in listed :: Open(ps, x) { CountListed(ps, events[n].c.now, listed, tok); }
  }

  lemma CountListed(ps: Pass, now: nat, listed: set<SocketId>, tok: SocketId -> int)
    requires PassInv(ps, now, tok) && OneFamily(ps, tok) && (forall x | x in listed :: Open(ps, x))
    ensures |listed| + |Absent(ps, listed, tok)| == |Bond(ps, tok)| + |Spare(ps, listed, tok)|
  {
    SpareIsDoubled(ps, now, listed, tok);
    DistinctBorn(ps.born);
    CountDoubled(ps.born, listed, tok);
    var all, some := Bond(ps, tok), Labels(listed, tok);
    hide PassInv, OneFamily, Spare, Doubled;
    assert some <= all;
    assert all == some + (all - some);
  }

  /** The bond is what the application has asked for. */
  lemma BondIsAsked(members: seq<Joined>, now: nat, events: seq<Event>, tok: SocketId -> int, t: int)
    requires GoodRun(members, now, events, tok)
    ensures var ps := Run(Start(members, now), events).pass;
            t in Bond(ps, tok) <==> AskedFor(ps.log, t, tok)
  {
    FamiliesHold(members, now, events, tok);
    ClocksHold(members, now, events, tok);
    hide Run, GoodRun, AskedAgain;
  }
}
