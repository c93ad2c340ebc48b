/** Which repair a stranded member gets, from what the rest of its group shows, and why the
    repairs that wait never wait on each other. */
module RepairPlan {
  import opened SrtTypes
  import opened Watch

  /** What libsrt answers during one look. The three live readings a plan takes are separate
      instants, since libsrt's threads run on between them; `died` are the members that stopped
      being in flight since the look before, and `connect` the member a reconnect left. */
  datatype Answers = Answers(
    flight: Sockets,
    peer: Sockets,
    broken: Sockets,
    died: set<SocketId>,
    rcvLatency: int,
    peerLatency: int,
    connect: Option<SocketId>,
    conntimeo: int)

  datatype Plan =
    | CloseNow
    | JoinSibling(other: SocketId)
    | HandToSibling(other: SocketId)
    | CloseThenSpawn
    | SpawnThenClose
    | Wait

  /** Not failed, on a live socket: its endpoint is taken care of. */
  predicate InFlight(member: MemberStatus, live: SocketStatus) {
    member in {Pending, Idle, Running} && !IsTerminal(live)
  }

  /** Up at the peer as well as here, and staying there. */
  predicate AtPeer(member: MemberStatus, live: SocketStatus) {
    member != MemberStatus.Broken && live == Connected
  }

  predicate FlightRow(r: Row, token: int, exclude: seq<SocketId>, live: Sockets) {
    r.token == token && r.id !in exclude && InFlight(r.member, SockState(live, r.id))
  }

  /** The first listed member in flight carrying `token`, but for those in `exclude`. */
  function MemberInFlight(rows: seq<Row>, token: int, exclude: seq<SocketId>, live: Sockets)
    : (found: Option<SocketId>)
    ensures found.Some? ==> exists r | r in rows :: r.id == found.value && FlightRow(r, token, exclude, live)
    ensures found.None? ==> forall r | r in rows :: !FlightRow(r, token, exclude, live)
  {
    if rows == [] then None
    else if FlightRow(rows[0], token, exclude, live) then Some(rows[0].id)
    else MemberInFlight(rows[1..], token, exclude, live)
  }

  predicate OtherAtPeer(rows: seq<Row>, exclude: seq<SocketId>, live: Sockets) {
    exists r | r in rows :: r.id !in exclude && AtPeer(r.member, SockState(live, r.id))
  }

  predicate ListedBroken(rows: seq<Row>, id: SocketId) {
    exists r | r in rows :: r.id == id && r.member == MemberStatus.Broken
  }

  predicate OtherBrokenLive(members: seq<Watched>, rows: seq<Row>, exclude: seq<SocketId>, live: Sockets) {
    exists e | e in members ::
      e.id !in exclude && ListedBroken(rows, e.id) && SockState(live, e.id) == Connected
  }

  /** Still in its handshake: neither connected nor dead, and inside its deadline. */
  predicate InHandshake(e: Watched, now: nat) {
    e.live != Connected && !IsTerminal(e.live) && now < e.resolveBy
  }

  predicate OtherHandshaking(members: seq<Watched>, exclude: seq<SocketId>, now: nat) {
    exists e | e in members :: e.id !in exclude && InHandshake(e, now)
  }

  function WeighOthers(broken: bool, up: bool, brokenLive: bool, handshaking: bool): (bool, bool) {
    (up || (broken && brokenLive), handshaking || (!broken && brokenLive))
  }

  /** `sibling`: another member in flight with the same token, and whether it is watched. */
  function ChoosePlan(repairs: nat, sibling: Option<(SocketId, bool)>, othersAtPeer: bool,
                      othersResolving: bool): Plan {
    if sibling.Some? && !sibling.value.1 then JoinSibling(sibling.value.0)
    else if sibling.None? && repairs >= MAX_STRANDED_REPAIRS then CloseNow
    else if othersAtPeer then
      if sibling.Some? then JoinSibling(sibling.value.0) else CloseThenSpawn
    else if othersResolving then Wait
    else if sibling.Some? then HandToSibling(sibling.value.0)
    else SpawnThenClose
  }

  /** The members a repair of `w` takes out: what it supersedes, and itself. */
  function Chain(w: Watched): seq<SocketId> {
    w.supersedes + [w.id]
  }

  predicate HasId(ws: seq<Watched>, id: SocketId) {
    exists e | e in ws :: e.id == id
  }

  function WithToken(ws: seq<Watched>, token: int): (found: Option<SocketId>)
    ensures found.Some? ==> exists e | e in ws :: e.id == found.value && e.endpoint.token == token
    ensures found.None? ==> forall e | e in ws :: e.endpoint.token != token
  {
    if ws == [] then None
    else if ws[0].endpoint.token == token then Some(ws[0].id)
    else WithToken(ws[1..], token)
  }

  function Sibling(w: Watched, watched: seq<Watched>, spawned: seq<Watched>, rows: seq<Row>, a: Answers)
    : Option<(SocketId, bool)>
  {
    match WithToken(spawned, w.endpoint.token)
    case Some(id) => Some((id, true))
    case None =>
      match MemberInFlight(rows, w.endpoint.token, Chain(w), a.flight)
      case Some(id) => Some((id, HasId(watched + spawned, id)))
      case None => None
  }

  function PlanRepair(w: Watched, broken: bool, watched: seq<Watched>, spawned: seq<Watched>,
                      rows: seq<Row>, now: nat, a: Answers): Plan {
    var others := WeighOthers(
      broken,
      OtherAtPeer(rows, Chain(w), a.peer),
      OtherBrokenLive(watched + spawned, rows, Chain(w), a.broken),
      OtherHandshaking(watched + spawned, Chain(w), now));
    ChoosePlan(w.repairs, Sibling(w, watched, spawned, rows, a), others.0, others.1)
  }

  // ── What a plan says about the rest of the group ──

  /** `x`, outside `chain`, was read on a connected socket: listed other than Broken, or
      watched and listed Broken. */
  ghost predicate PeerHas(x: SocketId, chain: seq<SocketId>, members: seq<Watched>, rows: seq<Row>, a: Answers) {
    && x !in chain
    && (|| (&& (exists r | r in rows :: r.id == x && r.member != MemberStatus.Broken)
            && SockState(a.peer, x) == Connected)
        || (HasId(members, x) && ListedBroken(rows, x) && SockState(a.broken, x) == Connected))
  }

  /** Make before break exactly when the repair budget is not spent, nothing else carries the
      token, nothing outside the chain is at the peer, and no handshake is running. Giving up
      exactly when that budget is spent and nothing else carries the token. */
  lemma OverlapsOnlyAlone(w: Watched, broken: bool, watched: seq<Watched>, spawned: seq<Watched>,
                          rows: seq<Row>, now: nat, a: Answers)
    ensures PlanRepair(w, broken, watched, spawned, rows, now, a) == SpawnThenClose <==>
            && w.repairs < MAX_STRANDED_REPAIRS
            && (forall e | e in spawned :: e.endpoint.token != w.endpoint.token)
            && (forall r | r in rows :: !FlightRow(r, w.endpoint.token, Chain(w), a.flight))
            && (forall x :: !PeerHas(x, Chain(w), watched + spawned, rows, a))
            && (forall e | e in watched + spawned :: e.id in Chain(w) || !InHandshake(e, now))
    ensures PlanRepair(w, broken, watched, spawned, rows, now, a) == CloseNow <==>
            && w.repairs >= MAX_STRANDED_REPAIRS
            && (forall e | e in spawned :: e.endpoint.token != w.endpoint.token)
            && (forall r | r in rows :: !FlightRow(r, w.endpoint.token, Chain(w), a.flight))
  {
    var members := watched + spawned;
    assert OtherAtPeer(rows, Chain(w), a.peer) || OtherBrokenLive(members, rows, Chain(w), a.broken) <==>
           exists x :: PeerHas(x, Chain(w), members, rows, a) by {
      if r :| r in rows && r.id !in Chain(w) && AtPeer(r.member, SockState(a.peer, r.id)) {
        assert PeerHas(r.id, Chain(w), members, rows, a);
      }
      if e :| && e in members && e.id !in Chain(w) && ListedBroken(rows, e.id)
              && SockState(a.broken, e.id) == Connected {
        assert PeerHas(e.id, Chain(w), members, rows, a);
      }
    }
  }

  // ── Which plan, from what was read ──

  /** Listed with the token, outside the chain, not Broken, on a socket read alive. */
  ghost predicate Carries(r: Row, token: int, chain: seq<SocketId>, live: Sockets) {
    && r.token == token && r.id !in chain && r.member != MemberStatus.Broken
    && SockState(live, r.id) !in {SocketStatus.Broken, Closing, Closed, NonExist}
  }

  /** Nothing else carries the token: no replacement of this pass, and no member listed. */
  ghost predicate NoSibling(w: Watched, spawned: seq<Watched>, rows: seq<Row>, a: Answers) {
    && (forall e | e in spawned :: e.endpoint.token != w.endpoint.token)
    && (forall r | r in rows :: !Carries(r, w.endpoint.token, w.supersedes + [w.id], a.flight))
  }

  ghost predicate FirstSpawned(ws: seq<Watched>, token: int, k: nat) {
    k < |ws| && ws[k].endpoint.token == token && forall j | 0 <= j < k :: ws[j].endpoint.token != token
  }

  ghost predicate FirstListed(rows: seq<Row>, token: int, chain: seq<SocketId>, live: Sockets, k: nat) {
    && k < |rows| && Carries(rows[k], token, chain, live)
    && forall j | 0 <= j < k :: !Carries(rows[j], token, chain, live)
  }

  /** `x` does: the first replacement of this pass with the token, or else the first member listed. */
  ghost predicate IsSibling(w: Watched, spawned: seq<Watched>, rows: seq<Row>, a: Answers, x: SocketId) {
    var token, chain := w.endpoint.token, w.supersedes + [w.id];
    || (exists k: nat :: FirstSpawned(spawned, token, k) && spawned[k].id == x)
    || ((forall e | e in spawned :: e.endpoint.token != token)
        && exists k: nat :: FirstListed(rows, token, chain, a.flight, k) && rows[k].id == x)
  }

  /** Someone outside the chain, listed other than Broken, was read CONNECTED. */
  ghost predicate UnbrokenUp(chain: seq<SocketId>, rows: seq<Row>, a: Answers) {
    exists r | r in rows :: r.id !in chain && r.member != MemberStatus.Broken && SockState(a.peer, r.id) == Connected
  }

  /** Someone outside the chain, watched and listed Broken, was. */
  ghost predicate BrokenUp(chain: seq<SocketId>, members: seq<Watched>, rows: seq<Row>, a: Answers) {
    exists e, r | e in members && r in rows ::
      e.id !in chain && r.id == e.id && r.member == MemberStatus.Broken && SockState(a.broken, e.id) == Connected
  }

  /** A watched member outside the chain is neither connected nor dead, inside its deadline. */
  ghost predicate StillConnecting(chain: seq<SocketId>, members: seq<Watched>, now: nat) {
    exists e | e in members ::
      e.id !in chain && now < e.resolveBy
      && e.live !in {Connected, SocketStatus.Broken, Closing, Closed, NonExist}
  }

  /** Every plan, each exactly when: by the token, the budget of 3, who else is up, and what there
      is to wait for. Who is listed Broken counts as up for a member that is so itself, and as a
      reason to wait for any other. */
  lemma PlansExactly(w: Watched, broken: bool, watched: seq<Watched>, spawned: seq<Watched>,
                     rows: seq<Row>, now: nat, a: Answers)
    ensures var plan, members := PlanRepair(w, broken, watched, spawned, rows, now, a), watched + spawned;
            var chain := w.supersedes + [w.id];
            var up := UnbrokenUp(chain, rows, a) || (broken && BrokenUp(chain, members, rows, a));
            var busy := StillConnecting(chain, members, now) || (!broken && BrokenUp(chain, members, rows, a));
            var free := NoSibling(w, spawned, rows, a);
            && (plan == CloseThenSpawn <==> free && w.repairs < 3 && up)
            && (plan == SpawnThenClose <==> free && w.repairs < 3 && !up && !busy)
            && (plan == CloseNow <==> free && w.repairs >= 3)
            && (plan == Wait <==>
                  !up && busy &&
                  if free then w.repairs < 3
                  else exists x :: IsSibling(w, spawned, rows, a, x) && HasId(members, x))
            && (forall x :: plan == JoinSibling(x) <==>
                  IsSibling(w, spawned, rows, a, x) && (!HasId(members, x) || up))
            && (forall x :: plan == HandToSibling(x) <==>
                  IsSibling(w, spawned, rows, a, x) && HasId(members, x) && !up && !busy)
  {
    var members, chain := watched + spawned, Chain(w);
    OthersAre(chain, broken, members, rows, now, a);
    SiblingIs(w, watched, spawned, rows, a);
    if Sibling(w, watched, spawned, rows, a).Some? {
      var x := Sibling(w, watched, spawned, rows, a).value.0;
      assert IsSibling(w, spawned, rows, a, x);
    }
    hide Sibling, NoSibling, IsSibling, UnbrokenUp, BrokenUp, StillConnecting, HasId;
    hide OtherAtPeer, OtherBrokenLive, OtherHandshaking;
  }

  lemma OthersAre(chain: seq<SocketId>, broken: bool, members: seq<Watched>, rows: seq<Row>, now: nat, a: Answers)
    ensures OtherAtPeer(rows, chain, a.peer) <==> UnbrokenUp(chain, rows, a)
    ensures OtherBrokenLive(members, rows, chain, a.broken) <==> BrokenUp(chain, members, rows, a)
    ensures OtherHandshaking(members, chain, now) <==> StillConnecting(chain, members, now)
  {
    if e :| && e in members && e.id !in chain && ListedBroken(rows, e.id)
            && SockState(a.broken, e.id) == Connected {
      var r :| r in rows && r.id == e.id && r.member == MemberStatus.Broken;
      assert BrokenUp(chain, members, rows, a);
    }
  }

  lemma SiblingIs(w: Watched, watched: seq<Watched>, spawned: seq<Watched>, rows: seq<Row>, a: Answers)
    ensures var s := Sibling(w, watched, spawned, rows, a);
            && (s.None? <==> NoSibling(w, spawned, rows, a))
            && (forall x :: IsSibling(w, spawned, rows, a, x) <==> s.Some? && s.value.0 == x)
            && (s.Some? ==> s.value.1 == HasId(watched + spawned, s.value.0))
  {
    var token, chain := w.endpoint.token, Chain(w);
    FindsSpawned(spawned, token);
    FindsListed(rows, token, chain, a.flight);
    forall e | e in spawned ensures HasId(watched + spawned, e.id) { assert e in watched + spawned; }
    assert forall r :: Carries(r, token, chain, a.flight) <==> FlightRow(r, token, chain, a.flight);
    hide Carries, FlightRow, HasId, WithToken, MemberInFlight;
  }

  lemma {:induction false} FindsSpawned(ws: seq<Watched>, token: int)
    ensures WithToken(ws, token).Some? ==>
              exists k: nat :: FirstSpawned(ws, token, k) && ws[k].id == WithToken(ws, token).value
  {
    if ws != [] && WithToken(ws, token).Some? {
      if ws[0].endpoint.token == token {
        assert FirstSpawned(ws, token, 0);
      } else {
        FindsSpawned(ws[1..], token);
        var k: nat :| FirstSpawned(ws[1..], token, k) && ws[1..][k].id == WithToken(ws[1..], token).value;
        assert forall j | 1 <= j <= k :: ws[j] == ws[1..][j - 1];
        assert FirstSpawned(ws, token, k + 1);
      }
    }
  }

  lemma {:induction false} FindsListed(rows: seq<Row>, token: int, chain: seq<SocketId>, live: Sockets)
    ensures var found := MemberInFlight(rows, token, chain, live);
            found.Some? ==> exists k: nat :: FirstListed(rows, token, chain, live, k) && rows[k].id == found.value
  {
    if rows != [] && MemberInFlight(rows, token, chain, live).Some? {
      if FlightRow(rows[0], token, chain, live) {
        assert FirstListed(rows, token, chain, live, 0);
      } else {
        FindsListed(rows[1..], token, chain, live);
        var k: nat :| FirstListed(rows[1..], token, chain, live, k)
                      && rows[1..][k].id == MemberInFlight(rows[1..], token, chain, live).value;
        assert forall j | 1 <= j <= k :: rows[j] == rows[1..][j - 1];
        assert FirstListed(rows, token, chain, live, k + 1);
      }
    }
  }

  /** A chain is handed over, too, only with nothing outside it up and no handshake running. */
  lemma HandsOnlyAlone(w: Watched, broken: bool, watched: seq<Watched>, spawned: seq<Watched>,
                       rows: seq<Row>, now: nat, a: Answers)
    requires PlanRepair(w, broken, watched, spawned, rows, now, a).HandToSibling?
    ensures forall x :: !PeerHas(x, Chain(w), watched + spawned, rows, a)
    ensures forall e | e in watched + spawned :: e.id in Chain(w) || !InHandshake(e, now)
  {
    if x :| PeerHas(x, Chain(w), watched + spawned, rows, a) {
      if HasId(watched + spawned, x) && ListedBroken(rows, x) && SockState(a.broken, x) == Connected {
        var e :| e in watched + spawned && e.id == x;
        assert OtherBrokenLive(watched + spawned, rows, Chain(w), a.broken);
      } else {
        assert OtherAtPeer(rows, Chain(w), a.peer);
      }
    }
    hide Sibling, ListedBroken, InHandshake;
  }

  /** Closing first because another member is up: some member outside the closed chain was read
      on a connected socket. The other close-first joins leave a member in flight, outside the
      chain, that is not watched. */
  lemma CloseFirstHasWitness(w: Watched, broken: bool, watched: seq<Watched>, spawned: seq<Watched>,
                             rows: seq<Row>, now: nat, a: Answers)
    ensures var plan := PlanRepair(w, broken, watched, spawned, rows, now, a);
            && (plan == CloseThenSpawn ==>
                  exists x :: PeerHas(x, Chain(w), watched + spawned, rows, a))
            && (plan.JoinSibling? ==>
                  || (&& HasId(watched + spawned, plan.other)
                      && exists x :: PeerHas(x, Chain(w), watched + spawned, rows, a))
                  || (&& !HasId(watched + spawned, plan.other)
                      && exists r | r in rows :: r.id == plan.other
                           && FlightRow(r, w.endpoint.token, Chain(w), a.flight)))
  {
    var members := watched + spawned;
    if OtherAtPeer(rows, Chain(w), a.peer) {
      var r :| r in rows && r.id !in Chain(w) && AtPeer(r.member, SockState(a.peer, r.id));
      assert PeerHas(r.id, Chain(w), members, rows, a);
    }
    if OtherBrokenLive(members, rows, Chain(w), a.broken) {
      var e :| && e in members && e.id !in Chain(w) && ListedBroken(rows, e.id)
               && SockState(a.broken, e.id) == Connected;
      assert PeerHas(e.id, Chain(w), members, rows, a);
    }
  }

  /** With a handshake running elsewhere no repair overlaps: it closes first, joins, gives up
      or waits. */
  lemma HandshakeStopsOverlap(w: Watched, broken: bool, watched: seq<Watched>, spawned: seq<Watched>,
                              rows: seq<Row>, now: nat, a: Answers, e: Watched)
    requires e in watched + spawned && e.id !in Chain(w) && InHandshake(e, now)
    ensures PlanRepair(w, broken, watched, spawned, rows, now, a) in
            {CloseNow, CloseThenSpawn, Wait} || PlanRepair(w, broken, watched, spawned, rows, now, a).JoinSibling?
  {
    assert OtherHandshaking(watched + spawned, Chain(w), now);
  }

  /** A sibling that is to take over is a member the bridge still watches, is not in the chain,
      and carries the same token. */
  lemma HandedSiblingIsWatched(w: Watched, broken: bool, watched: seq<Watched>, spawned: seq<Watched>,
                               rows: seq<Row>, now: nat, a: Answers)
    requires w in watched
    requires PlanRepair(w, broken, watched, spawned, rows, now, a).HandToSibling?
    ensures var other := PlanRepair(w, broken, watched, spawned, rows, now, a).other;
            && HasId(watched + spawned, other)
            && (|| (other !in Chain(w) && exists r | r in rows :: r.id == other && r.token == w.endpoint.token)
                || exists e | e in spawned :: e.id == other && e.endpoint.token == w.endpoint.token)
  {
    var other := PlanRepair(w, broken, watched, spawned, rows, now, a).other;
    if WithToken(spawned, w.endpoint.token).Some? {
      var e :| e in spawned && e.id == other && e.endpoint.token == w.endpoint.token;
      assert e in watched + spawned;
    }
  }

  // ── Who waits on whom ──

  /** One instant of a pass: what it watches and has spawned, its listing, its time. */
  datatype Scene = Scene(watched: seq<Watched>, spawned: seq<Watched>, rows: seq<Row>, now: nat, backup: bool)

  ghost predicate UniqueIds(rows: seq<Row>) {
    forall r, q | r in rows && q in rows && r.id == q.id :: r == q
  }

  ghost function VerdictOf(s: Scene, w: Watched): Verdict {
    ClassifyWatched(w.live, FindRow(s.rows, w.id), w.forced, s.backup)
  }

  /** `w` is due for replacement at this instant, and its plan under readings `a` is to wait. */
  ghost predicate Waits(s: Scene, w: Watched, a: Answers) {
    && w in s.watched
    && NextStep(w, VerdictOf(s, w), s.now).1 == Repair
    && PlanRepair(w, VerdictOf(s, w) == BrokenLive, s.watched, s.spawned, s.rows, s.now, a) == Wait
  }

  /** `w` waits, and `e` is a reason: its handshake, or, for a member not itself listed Broken,
      its being listed Broken on a connected socket. */
  ghost predicate WaitsOn(s: Scene, w: Watched, e: Watched, a: Answers) {
    && Waits(s, w, a)
    && e in s.watched + s.spawned && e.id !in Chain(w)
    && (|| InHandshake(e, s.now)
        || (&& VerdictOf(s, w) != BrokenLive
            && ListedBroken(s.rows, e.id) && SockState(a.broken, e.id) == Connected))
  }

  ghost function Rank(s: Scene, e: Watched): nat {
    if InHandshake(e, s.now) then 0 else if ListedBroken(s.rows, e.id) then 1 else 2
  }

  /** Every wait has a reason, and every reason ranks below what waits on it. */
  lemma WaitDescends(s: Scene, w: Watched, a: Answers)
    requires UniqueIds(s.rows) && Waits(s, w, a)
    ensures exists e :: WaitsOn(s, w, e, a)
    ensures forall e | WaitsOn(s, w, e, a) :: Rank(s, e) < Rank(s, w)
  {
    WaitHasReason(s, w, a);
    forall e | WaitsOn(s, w, e, a) ensures Rank(s, e) < Rank(s, w) {
      ReasonRanksBelow(s, w, e, a);
    }
  }

  lemma WaitHasReason(s: Scene, w: Watched, a: Answers)
    requires Waits(s, w, a)
    ensures exists e :: WaitsOn(s, w, e, a)
  {
    var members := s.watched + s.spawned;
    if OtherHandshaking(members, Chain(w), s.now) {
      var e :| e in members && e.id !in Chain(w) && InHandshake(e, s.now);
      assert WaitsOn(s, w, e, a);
    } else {
      var e :| && e in members && e.id !in Chain(w) && ListedBroken(s.rows, e.id)
               && SockState(a.broken, e.id) == Connected;
      assert WaitsOn(s, w, e, a);
    }
  }

  lemma ReasonRanksBelow(s: Scene, w: Watched, e: Watched, a: Answers)
    requires UniqueIds(s.rows) && WaitsOn(s, w, e, a)
    ensures Rank(s, e) < Rank(s, w)
  {
  }

  /** A chain of waits, each link under its own readings, has at most three members and never
      comes back to one of them. */
  lemma {:induction false} WaitsNeverCycle(s: Scene, c: seq<Watched>, a: seq<Answers>)
    requires UniqueIds(s.rows) && |c| == |a| + 1
    requires forall i | 0 <= i < |a| :: WaitsOn(s, c[i], c[i+1], a[i])
    ensures |c| <= 3
    ensures forall i, j | 0 <= i < j < |c| :: c[i] != c[j]
  {
    forall i, j | 0 <= i < j < |c| ensures Rank(s, c[j]) + (j - i) <= Rank(s, c[i]) {
      RankFalls(s, c, a, i, j);
    }
    if |c| > 3 { RankFalls(s, c, a, 0, 3); }
  }

  lemma {:induction false} RankFalls(s: Scene, c: seq<Watched>, a: seq<Answers>, i: nat, j: nat)
    requires UniqueIds(s.rows) && |c| == |a| + 1 && i <= j < |c|
    requires forall k | 0 <= k < |a| :: WaitsOn(s, c[k], c[k+1], a[k])
    ensures Rank(s, c[j]) + (j - i) <= Rank(s, c[i])
    decreases j
  {
    if i < j {
      RankFalls(s, c, a, i, j - 1);
      assert WaitsOn(s, c[j-1], c[(j-1)+1], a[j-1]);
      WaitDescends(s, c[j-1], a[j-1]);
    }
  }

  /** Once every connect deadline has passed, only members not listed Broken can wait, each on a
      member that is, and a member listed Broken acts at once: the deadlines bound every wait. */
  lemma DeadlinesEndWaits(s: Scene, w: Watched, a: Answers)
    requires UniqueIds(s.rows) && Waits(s, w, a)
    requires forall e | e in s.watched + s.spawned :: s.now >= e.resolveBy
    ensures VerdictOf(s, w) != BrokenLive
    ensures exists e :: WaitsOn(s, w, e, a) && ListedBroken(s.rows, e.id)
                        && forall b: Answers :: !Waits(s, e, b)
  {
    WaitDescends(s, w, a);
    var e :| WaitsOn(s, w, e, a);
    forall b: Answers ensures !Waits(s, e, b) {
      if Waits(s, e, b) { WaitDescends(s, e, b); }
    }
  }
}
