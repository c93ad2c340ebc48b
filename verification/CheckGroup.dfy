/** One pass over the watched members of a group: look at each that is due, and keep, release,
    close or replace it. The loop removes members by `swap_remove` and its repairs close and
    spawn members that the listing, read once at the start, does not show.

    `Look` is the specification of one look, `CheckPass` of the whole pass; the class carries
    them out. */
module CheckGroup {
  import opened SrtTypes
  import opened Watch
  import opened Journal
  import opened RepairPlan

  /** What stays fixed during a pass. */
  datatype Context = Context(rows: seq<Row>, now: nat, backup: bool)

  /** The state of a pass. `born`, `closed` and `released` are logs over the life of the group:
      members spawned into it, members closed by the bridge, members read up or gone and left.
      `looked` logs the members this pass has come to, with the time each was due, `flight` is
      the set of members in flight, `repairs` counts the members replaced or given up. `log` is
      the journal of the group. */
  datatype Pass = Pass(
    watched: seq<Watched>,
    idx: nat,
    spawned: seq<Watched>,
    born: seq<SocketId>,
    closed: seq<SocketId>,
    released: seq<SocketId>,
    looked: seq<(SocketId, nat)>,
    flight: set<SocketId>,
    repairs: nat,
    log: seq<Note>)

  function Elems<T>(s: seq<T>): set<T> { set x | x in s }

  function IndexOf(ws: seq<Watched>, id: SocketId): (i: nat)
    requires HasId(ws, id)
    ensures i < |ws| && ws[i].id == id
  {
    if ws[0].id == id then 0
    else
      var e :| e in ws && e.id == id;
      assert e in ws[1..];
      1 + IndexOf(ws[1..], id)
  }

  // ── The moves a look is made of ──

  function EndsOf(ids: seq<SocketId>): seq<Note> {
    seq(|ids|, i requires 0 <= i < |ids| => Ends(ids[i]))
  }

  function CloseIds(ps: Pass, ids: seq<SocketId>): Pass {
    ps.(closed := ps.closed + ids, flight := ps.flight - Elems(ids), log := ps.log + EndsOf(ids))
  }

  function Put(ps: Pass, w: Watched): Pass
    requires ps.idx < |ps.watched|
  {
    ps.(watched := ps.watched[ps.idx := w])
  }

  function Take(ps: Pass): Pass
    requires ps.idx < |ps.watched|
  {
    ps.(watched := SwapRemove(ps.watched, ps.idx))
  }

  function Next(ps: Pass): Pass { ps.(idx := ps.idx + 1) }

  function Release(ps: Pass, id: SocketId): Pass { ps.(released := ps.released + [id]) }

  /** Add replacement `e`, begun as `n` says. */
  function Spawn(ps: Pass, e: Watched, n: Note): Pass {
    ps.(spawned := ps.spawned + [e], born := ps.born + [e.id], flight := ps.flight + {e.id}, log := ps.log + [n])
  }

  function Extend(ws: seq<Watched>, id: SocketId, chain: seq<SocketId>): (r: seq<Watched>)
    requires HasId(ws, id)
    ensures |r| == |ws|
  {
    var i := IndexOf(ws, id);
    ws[i := ws[i].(supersedes := ws[i].supersedes + chain)]
  }

  function Hand(ps: Pass, other: SocketId, chain: seq<SocketId>): (r: Pass)
    ensures |r.watched| == |ps.watched|
  {
    var log := ps.log + [Hands(other, chain)];
    if HasId(ps.watched, other) then ps.(watched := Extend(ps.watched, other, chain), log := log)
    else if HasId(ps.spawned, other) then ps.(spawned := Extend(ps.spawned, other, chain), log := log)
    else CloseIds(ps, chain)
  }

  // ── One look ──

  /** A member that is up starts, or ends, the linger of what it superseded: the member, and
      what is closed. */
  function Linger(w: Watched, verdict: Verdict, now: nat, a: Answers): (Watched, seq<SocketId>) {
    if verdict in {Confirmed, Masked} && w.supersedes != [] then
      var at := w.closeSupersededAt.GetOr(now + LingerTime(a.rcvLatency, a.peerLatency));
      var held := w.(closeSupersededAt := Some(at));
      if now >= at then (held.(supersedes := []), w.supersedes) else (held, [])
    else (w, [])
  }

  function VerdictAt(w: Watched, c: Context): Verdict {
    ClassifyWatched(w.live, FindRow(c.rows, w.id), w.forced, c.backup)
  }

  /** The replacement of `w`, one repair deeper. */
  function Replacement(w: Watched, id: SocketId, supersedes: seq<SocketId>, now: nat, a: Answers): Watched {
    Spawned(id, w.endpoint, now, a.conntimeo).(repairs := w.repairs + 1, supersedes := supersedes)
  }

  /** Carry out `plan` for `w`, already taken out of the watched members. */
  function Repaired(ps0: Pass, w: Watched, plan: Plan, c: Context, a: Answers): (r: Pass)
    requires plan != Wait
    ensures r.idx == ps0.idx && |r.watched| == |ps0.watched|
  {
    var ps := ps0.(repairs := ps0.repairs + if w.forced then 0 else 1);
    match plan
    case CloseNow => CloseIds(ps, Chain(w))
    case JoinSibling(_) => CloseIds(ps, Chain(w))
    case HandToSibling(other) => Hand(ps, other, Chain(w))
    case CloseThenSpawn =>
      var shut := CloseIds(ps, Chain(w));
      (match a.connect
       case Some(id) => Spawn(shut, Replacement(w, id, [], c.now, a), Begins(id, c.now, a.conntimeo, Chain(w)))
       case None => shut)
    case SpawnThenClose =>
      match a.connect
      case Some(id) => Spawn(ps, Replacement(w, id, Chain(w), c.now, a), Begins(id, c.now, a.conntimeo, Chain(w)))
      case None => CloseIds(ps, Chain(w))
  }

  /** The step for the member looked at, once it is written back. Whatever it is, the members
      still ahead of the loop shrink by exactly one. */
  function Stepped(ps: Pass, step: Step, verdict: Verdict, c: Context, a: Answers): (r: Pass)
    requires ps.idx < |ps.watched|
    ensures r.idx <= |r.watched| && |r.watched| - r.idx == |ps.watched| - ps.idx - 1
  {
    var w := ps.watched[ps.idx];
    match step
    case Keep => Next(ps)
    case Recheck(at) => Next(Put(ps, w.(notBefore := at)))
    case Drop => CloseIds(Release(Take(ps), w.id), w.supersedes)
    case Abandon => CloseIds(Take(ps), [w.id] + w.supersedes)
    case Repair =>
      var plan := PlanRepair(w, verdict == BrokenLive, ps.watched, ps.spawned, c.rows, c.now, a);
      if plan == Wait then Next(ps) else Repaired(Take(ps), w, plan, c, a)
  }

  /** The member the loop is at is judged: what the journal keeps of it. */
  function Judging(w: Watched, c: Context, a: Answers): Note {
    Reads(w.id, VerdictAt(w, c), c.now, w.supersedes != [], a.rcvLatency, a.peerLatency)
  }

  /** Judge the member the loop is at: the pass with it written back, and its step. */
  function Judged(ps: Pass, c: Context, a: Answers): (r: (Pass, Step))
    requires ps.idx < |ps.watched|
    ensures r.0.idx == ps.idx && |r.0.watched| == |ps.watched|
  {
    var w := ps.watched[ps.idx];
    var verdict := VerdictAt(w, c);
    var lingered := Linger(w, verdict, c.now, a);
    var next := NextStep(lingered.0, verdict, c.now);
    var noted := ps.(log := ps.log + [Judging(w, c, a)]);
    (Put(CloseIds(noted, lingered.1), next.0), next.1)
  }

  function Look(ps0: Pass, c: Context, a: Answers): (r: Pass)
    ensures ps0.idx < |ps0.watched| ==>
              r.idx <= |r.watched| && |r.watched| - r.idx == |ps0.watched| - ps0.idx - 1
  {
    var ps := ps0.(flight := ps0.flight - a.died);
    if ps.idx >= |ps.watched| then ps
    else
      var w := ps.watched[ps.idx];
      var at := ps.(looked := ps.looked + [(w.id, w.notBefore)]);
      if w.notBefore > c.now then Next(at)
      else
        var judged := Judged(at, c, a);
        Stepped(judged.0, judged.1, VerdictAt(w, c), c, a)
  }

  function Looks(ps: Pass, c: Context, answers: seq<Answers>): Pass {
    if answers == [] then ps
    else Look(Looks(ps, c, answers[..|answers| - 1]), c, answers[|answers| - 1])
  }

  // ── The pass ──

  function ReadLive(ws: seq<Watched>, live: Sockets): seq<Watched> {
    seq(|ws|, i requires 0 <= i < |ws| => ws[i].(live := SockState(live, ws[i].id)))
  }

  predicate AnyDue(ws: seq<Watched>, now: nat) {
    exists w | w in ws :: w.notBefore <= now
  }

  function Begin(ps: Pass, live: Sockets): Pass {
    ps.(watched := ReadLive(ps.watched, live), idx := 0, spawned := [], looked := [])
  }

  function End(ps: Pass): Pass {
    ps.(watched := ps.watched + ps.spawned, idx := 0, spawned := [])
  }

  function CheckPass(ps: Pass, c: Context, live: Sockets, answers: seq<Answers>): Pass {
    if !AnyDue(ps.watched, c.now) then ps
    else End(Looks(Begin(ps, live), c, answers))
  }

  /** A member a group connect left in the group, its endpoint, and its own SRTO_CONNTIMEO. */
  datatype Joined = Joined(id: SocketId, endpoint: Endpoint, conntimeo: int)

  function WatchAll(members: seq<Joined>, now: nat): seq<Watched> {
    seq(|members|, i requires 0 <= i < |members| =>
        Spawned(members[i].id, members[i].endpoint, now, members[i].conntimeo))
  }

  function BeginsOf(members: seq<Joined>, now: nat): seq<Note> {
    seq(|members|, i requires 0 <= i < |members| => Begins(members[i].id, now, members[i].conntimeo, []))
  }

  /** A group just connected, every member watched. */
  function Started(members: seq<Joined>, now: nat): Pass {
    var ids := seq(|members|, i requires 0 <= i < |members| => members[i].id);
    Pass(WatchAll(members, now), 0, [], ids, [], [], [], Elems(ids), 0, BeginsOf(members, now))
  }

  /** What a re-add finds: `groupUp`, whether the bridge still tracks the group, has not seen it
      break and libsrt reports it connected; the listing, the live states read with it, and the
      member the connect left. */
  datatype AddAnswers = AddAnswers(groupUp: bool, rows: seq<Row>, live: Sockets, connect: Option<SocketId>,
                                   now: nat, conntimeo: int)

  function Added(ps: Pass, endpoint: Endpoint, a: AddAnswers): Pass {
    if !a.groupUp || MemberInFlight(a.rows, endpoint.token, [], a.live).Some? || a.connect.None? then ps
    else
      ps.(watched := ps.watched + [Spawned(a.connect.value, endpoint, a.now, a.conntimeo)],
          born := ps.born + [a.connect.value],
          flight := ps.flight + {a.connect.value},
          log := ps.log + [Begins(a.connect.value, a.now, a.conntimeo, [])])
  }

  /** A question to libsrt: a member's live state, or the group's listing. */
  datatype Query = LiveState(id: SocketId) | Listing

  function LiveQueries(ws: seq<Watched>): seq<Query> {
    seq(|ws|, i requires 0 <= i < |ws| => LiveState(ws[i].id))
  }

  class GroupBridge {
    const backup: bool
    var watched: seq<Watched>
    /** Replacements spawned in the current pass; empty between passes. */
    var spawned: seq<Watched>
    var repairs: nat
    ghost var born: seq<SocketId>
    ghost var closed: seq<SocketId>
    ghost var released: seq<SocketId>
    ghost var looked: seq<(SocketId, nat)>
    ghost var flight: set<SocketId>
    ghost var log: seq<Note>
    /** What the bridge has asked libsrt, in order. */
    ghost var asked: seq<Query>

    ghost function State(idx: nat): Pass
      reads this
    {
      Pass(watched, idx, spawned, born, closed, released, looked, flight, repairs, log)
    }

    /** Watch the members a group connect left in the group. */
    constructor (backup: bool, members: seq<Joined>, now: nat)
      ensures this.backup == backup
      ensures State(0) == Started(members, now) && asked == []
    {
      this.backup := backup;
      watched := WatchAll(members, now);
      spawned, closed, released, looked, repairs := [], [], [], [], 0;
      born := seq(|members|, i requires 0 <= i < |members| => members[i].id);
      flight := Elems(seq(|members|, i requires 0 <= i < |members| => members[i].id));
      log, asked := BeginsOf(members, now), [];
    }

    /** Connect one more member into the live group: refused unless the group is up, and a no-op
        while a member in flight carries the token. */
    method AddGroupMember(endpoint: Endpoint, a: AddAnswers) returns (ok: bool)
      modifies this
      ensures State(0) == Added(old(State(0)), endpoint, a)
      ensures ok <==> a.groupUp && (MemberInFlight(a.rows, endpoint.token, [], a.live).Some? || a.connect.Some?)
    {
      if !a.groupUp {
        return false;
      }
      if MemberInFlight(a.rows, endpoint.token, [], a.live).Some? {
        return true;
      }
      if a.connect.None? {
        return false;
      }
      watched := watched + [Spawned(a.connect.value, endpoint, a.now, a.conntimeo)];
      born := born + [a.connect.value];
      flight := flight + {a.connect.value};
      log := log + [Begins(a.connect.value, a.now, a.conntimeo, [])];
      return true;
    }

    method CloseMembers(ids: seq<SocketId>, ghost idx: nat)
      modifies this`closed, this`flight, this`log
      ensures State(idx) == CloseIds(old(State(idx)), ids)
    {
      for i := 0 to |ids|
        invariant State(idx) == CloseIds(old(State(idx)), ids[..i])
      {
        closed := closed + [ids[i]];
        flight := flight - {ids[i]};
        log := log + [Ends(ids[i])];
        assert ids[..i+1] == ids[..i] + [ids[i]];
        assert EndsOf(ids[..i+1]) == EndsOf(ids[..i]) + [Ends(ids[i])];
      }
      assert ids[..|ids|] == ids;
    }

    method AddReplacement(next: Watched, ghost note: Note, ghost idx: nat)
      modifies this`spawned, this`born, this`flight, this`log
      ensures State(idx) == Spawn(old(State(idx)), next, note)
    {
      spawned := spawned + [next];
      born := born + [next.id];
      flight := flight + {next.id};
      log := log + [note];
    }

    method RepairStranded(w: Watched, plan: Plan, c: Context, a: Answers, ghost idx: nat)
      requires plan != Wait
      modifies this
      ensures asked == old(asked)
      ensures State(idx) == Repaired(old(State(idx)), w, plan, c, a)
    {
      if !w.forced { repairs := repairs + 1; }
      var chain := Chain(w);
      if plan.HandToSibling? && HasId(watched, plan.other) {
        watched := Extend(watched, plan.other, chain);
        log := log + [Hands(plan.other, chain)];
      } else if plan.HandToSibling? && HasId(spawned, plan.other) {
        spawned := Extend(spawned, plan.other, chain);
        log := log + [Hands(plan.other, chain)];
      } else if plan == CloseThenSpawn || plan == SpawnThenClose {
        var closeFirst := plan == CloseThenSpawn;
        if closeFirst { CloseMembers(chain, idx); }
        if a.connect.Some? {
          var next := Spawned(a.connect.value, w.endpoint, c.now, a.conntimeo).(repairs := w.repairs + 1);
          if !closeFirst { next := next.(supersedes := chain); }
          AddReplacement(next, Begins(next.id, c.now, a.conntimeo, chain), idx);
        } else if !closeFirst {
          CloseMembers(chain, idx);
        }
      } else {
        CloseMembers(chain, idx);
      }
    }

    /** Close what the member at `idx` superseded once its linger has run out. */
    method EndLinger(idx: nat, verdict: Verdict, now: nat, a: Answers)
      requires idx < |watched|
      modifies this`watched, this`closed, this`flight, this`log
      ensures var lingered := Linger(old(watched)[idx], verdict, now, a);
              State(idx) == Put(CloseIds(old(State(idx)), lingered.1), lingered.0)
    {
      if verdict in {Confirmed, Masked} && watched[idx].supersedes != [] {
        var at := watched[idx].closeSupersededAt.GetOr(now + LingerTime(a.rcvLatency, a.peerLatency));
        watched := watched[idx := watched[idx].(closeSupersededAt := Some(at))];
        if now >= at {
          CloseMembers(watched[idx].supersedes, idx);
          watched := watched[idx := watched[idx].(supersedes := [])];
        }
      }
    }

    method TakeStep(idx: nat, step: Step, verdict: Verdict, c: Context, a: Answers) returns (idx': nat)
      requires idx < |watched|
      modifies this
      ensures asked == old(asked)
      ensures State(idx') == Stepped(old(State(idx)), step, verdict, c, a)
    {
      idx' := idx;
      var w := watched[idx];
      match step
      case Keep => idx' := idx + 1;
      case Recheck(at) =>
        watched := watched[idx := w.(notBefore := at)];
        idx' := idx + 1;
      case Drop =>
        watched := SwapRemove(watched, idx);
        released := released + [w.id];
        CloseMembers(w.supersedes, idx);
      case Abandon =>
        watched := SwapRemove(watched, idx);
        CloseMembers([w.id] + w.supersedes, idx);
      case Repair =>
        var plan := PlanRepair(w, verdict == BrokenLive, watched, spawned, c.rows, c.now, a);
        if plan == Wait {
          idx' := idx + 1;
        } else {
          watched := SwapRemove(watched, idx);
          RepairStranded(w, plan, c, a, idx);
        }
    }

    /** The body of the loop for the member at `idx`. */
    method LookAtMember(idx: nat, c: Context, a: Answers) returns (idx': nat)
      requires idx < |watched|
      modifies this
      ensures asked == old(asked)
      ensures State(idx') == Look(old(State(idx)), c, a)
    {
      hide Stepped, Repaired, PlanRepair, Linger, NextStep, VerdictAt;
      flight := flight - a.died;
      looked := looked + [(watched[idx].id, watched[idx].notBefore)];
      if watched[idx].notBefore > c.now {
        return idx + 1;
      }
      var verdict := VerdictAt(watched[idx], c);
      log := log + [Judging(watched[idx], c, a)];
      EndLinger(idx, verdict, c.now, a);
      var next := NextStep(watched[idx], verdict, c.now);
      watched := watched[idx := next.0];
      assert watched == old(watched)[idx := next.0];
      idx' := TakeStep(idx, next.1, verdict, c, a);
    }

    /** Ask for the live state of every watched member, in order. */
    method ReadStates(live: Sockets)
      modifies this`watched, this`asked
      ensures watched == ReadLive(old(watched), live)
      ensures asked == old(asked) + LiveQueries(old(watched))
    {
      for i := 0 to |watched|
        invariant |watched| == |old(watched)|
        invariant asked == old(asked) + LiveQueries(old(watched)[..i])
        invariant forall k | 0 <= k < |watched| ::
          watched[k] == if k < i then old(watched)[k].(live := SockState(live, old(watched)[k].id))
                        else old(watched)[k]
      {
        asked := asked + [LiveState(watched[i].id)];
        watched := watched[i := watched[i].(live := SockState(live, watched[i].id))];
        assert LiveQueries(old(watched)[..i+1]) == LiveQueries(old(watched)[..i]) + [LiveState(watched[i].id)];
      }
      assert old(watched)[..|watched|] == old(watched);
    }

    /** One pass, if any member is due: every live state is asked for before the listing is.
        `live` and `rows` are the answers; `answers[k]` is what libsrt answers during look `k`. */
    method CheckGroup(rows: seq<Row>, live: Sockets, now: nat, answers: seq<Answers>)
      requires |answers| == |watched| && spawned == []
      modifies this
      ensures spawned == []
      ensures asked == old(asked) + if AnyDue(old(watched), now) then LiveQueries(old(watched)) + [Listing] else []
      ensures State(0) == CheckPass(old(State(0)), Context(rows, now, backup), live, answers)
    {
      if !AnyDue(watched, now) {
        return;
      }
      var c := Context(rows, now, backup);
      ReadStates(live);
      asked := asked + [Listing];
      looked := [];
      ghost var start := Begin(old(State(0)), live);
      var idx: nat, n: nat := 0, 0;
      while idx < |watched|
        invariant n <= |answers| && idx <= |watched|
        invariant |watched| - idx == |answers| - n
        invariant asked == old(asked) + LiveQueries(old(watched)) + [Listing]
        invariant State(idx) == Looks(start, c, answers[..n])
        decreases |answers| - n
      {
        assert answers[..n+1][..n] == answers[..n];
        idx := LookAtMember(idx, c, answers[n]);
        n := n + 1;
      }
      assert answers[..n] == answers;
      watched := watched + spawned;
      spawned := [];
    }
  }
}
