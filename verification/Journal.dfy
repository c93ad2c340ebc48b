/** The journal of a group: every member begun and ended and every reading of one, in the order
    they happened; and the clocks of a member, told from the journal alone. */
module Journal {
  import opened SrtTypes
  import opened Watch

  /** `Begins`: a member was connected, to replace the members of `chain`, with its own
      SRTO_CONNTIMEO. `Hands`: a member was handed those of `chain`, to replace them. `Ends`: the
      bridge closed a member. `Reads`: a watched member was judged;
      `holding`, whether it superseded any, and the latencies libsrt gives for it. */
  datatype Note =
    | Begins(id: SocketId, at: nat, conntimeo: int, chain: seq<SocketId>)
    | Hands(id: SocketId, chain: seq<SocketId>)
    | Ends(id: SocketId)
    | Reads(id: SocketId, verdict: Verdict, at: nat, holding: bool, rcvLatency: int, peerLatency: int)

  /** A note that has a time. */
  predicate Timed(n: Note) { n.Begins? || n.Reads? }

  /** A note by which a member replaces others. */
  predicate Takes(n: Note) { n.Begins? || n.Hands? }

  predicate Strands(v: Verdict) { v == Stranded || v == BrokenLive }

  predicate IsUp(v: Verdict) { v == Confirmed || v == Masked }

  // ── The clocks, told note by note ──

  /** The first of the stranding readings of `x` that no other reading of it has followed. */
  function Since(log: seq<Note>, x: SocketId): Option<nat> {
    if log == [] then None
    else
      var before, n := Since(log[..|log| - 1], x), log[|log| - 1];
      if !(n.Reads? && n.id == x) then before
      else if Strands(n.verdict) then Some(before.GetOr(n.at))
      else None
  }

  /** When what `x` superseded is due to be closed: fixed by its first up reading with any. */
  function LingerEnd(log: seq<Note>, x: SocketId): Option<nat> {
    if log == [] then None
    else
      var before, n := LingerEnd(log[..|log| - 1], x), log[|log| - 1];
      if before.Some? || !(n.Reads? && n.id == x && IsUp(n.verdict) && n.holding) then before
      else Some(n.at + LingerTime(n.rcvLatency, n.peerLatency))
  }

  ghost predicate Quiet(log: seq<Note>, x: SocketId) {
    forall n | n in log :: n.Reads? ==> n.id != x
  }

  /** Notes that do not read `x` leave its clocks alone. */
  lemma {:induction false} QuietClocks(log: seq<Note>, more: seq<Note>, x: SocketId)
    requires Quiet(more, x)
    ensures Since(log + more, x) == Since(log, x) && LingerEnd(log + more, x) == LingerEnd(log, x)
  {
    if more == [] {
      assert log + more == log;
    } else {
      assert (log + more)[..|log + more| - 1] == log + more[..|more| - 1];
      assert more[|more| - 1] in more;
      QuietClocks(log, more[..|more| - 1], x);
    }
  }

  lemma NeverRead(log: seq<Note>, x: SocketId)
    requires Quiet(log, x)
    ensures Since(log, x) == None && LingerEnd(log, x) == None
  {
    QuietClocks([], log, x);
    assert [] + log == log;
  }

  // ── What the clocks mean ──

  ghost predicate ReadAt(log: seq<Note>, i: nat, x: SocketId) {
    i < |log| && log[i].Reads? && log[i].id == x
  }

  /** `x` was read at `i`, and every reading of it from there on is stranding. */
  ghost predicate StrandsFrom(log: seq<Note>, i: nat, x: SocketId) {
    ReadAt(log, i, x) && forall j | i <= j < |log| && ReadAt(log, j, x) :: Strands(log[j].verdict)
  }

  /** The clock runs exactly while the last readings strand, from the first of them. */
  lemma {:induction false} ClockIsStartOfRun(log: seq<Note>, x: SocketId)
    ensures Since(log, x) == None <==> forall i: nat :: !StrandsFrom(log, i, x)
    ensures forall t | Since(log, x) == Some(t) ::
              exists i: nat ::
                StrandsFrom(log, i, x) && log[i].at == t && forall j: nat | StrandsFrom(log, j, x) :: i <= j
  {
    if log != [] {
      var n := |log| - 1;
      var init := log[..n];
      ClockIsStartOfRun(init, x);
      forall i: nat | i < n ensures ReadAt(log, i, x) == ReadAt(init, i, x) {}
      if !ReadAt(log, n, x) {
        forall i: nat ensures StrandsFrom(log, i, x) == StrandsFrom(init, i, x) {}
      } else if Strands(log[n].verdict) {
        assert StrandsFrom(log, n, x);
        forall i: nat ensures StrandsFrom(log, i, x) == (i == n || StrandsFrom(init, i, x)) {}
      } else {
        forall i: nat ensures !StrandsFrom(log, i, x) { assert ReadAt(log, n, x); }
      }
    }
  }

  /** Times never go back, and none is past `now`. */
  ghost predicate Timely(log: seq<Note>, now: nat) {
    && (forall i, j | 0 <= i < j < |log| && Timed(log[i]) && Timed(log[j]) :: log[i].at <= log[j].at)
    && (forall n | n in log && Timed(n) :: n.at <= now)
  }

  /** Read stranding without a break for the grace at least. */
  ghost predicate StrandedLong(log: seq<Note>, x: SocketId, now: nat) {
    exists i: nat :: StrandsFrom(log, i, x) && log[i].at + STRANDED_MEMBER_GRACE <= now
  }

  lemma GraceIsOver(log: seq<Note>, x: SocketId, now: nat)
    requires Timely(log, now)
    ensures Since(log, x).Some? && now - Since(log, x).value >= STRANDED_MEMBER_GRACE <==> StrandedLong(log, x, now)
  {
    ClockIsStartOfRun(log, x);
    hide Since;
  }

  ghost predicate UpAt(log: seq<Note>, i: nat, x: SocketId) {
    ReadAt(log, i, x) && IsUp(log[i].verdict) && log[i].holding
  }

  /** The linger is set by the first up reading of a member that supersedes any, and never moves. */
  lemma {:induction false} LingerClock(log: seq<Note>, x: SocketId)
    ensures LingerEnd(log, x) == None <==> forall i: nat :: !UpAt(log, i, x)
    ensures forall t | LingerEnd(log, x) == Some(t) ::
              exists i: nat :: UpAt(log, i, x) && (forall j: nat | j < i :: !UpAt(log, j, x))
                               && t == log[i].at + LingerTime(log[i].rcvLatency, log[i].peerLatency)
  {
    if log != [] {
      var n := |log| - 1;
      var init := log[..n];
      LingerClock(init, x);
      forall i: nat | i < n ensures UpAt(log, i, x) == UpAt(init, i, x) {}
      forall i: nat | UpAt(init, i, x) ensures UpAt(log, i, x) {}
      if UpAt(log, n, x) && LingerEnd(init, x) == None {
        assert forall j: nat | j < n :: !UpAt(log, j, x);
      }
      hide LingerTime;
    }
  }

  /** Both latencies read at the first up reading, and a second, have passed since. */
  ghost predicate LingeredLong(log: seq<Note>, x: SocketId, now: nat) {
    exists i: nat ::
      && UpAt(log, i, x) && (forall j: nat | j < i :: !UpAt(log, j, x))
      && now >= log[i].at + SUPERSEDED_LINGER_SLACK
      && now >= log[i].at + SUPERSEDED_LINGER_SLACK + log[i].rcvLatency
      && now >= log[i].at + SUPERSEDED_LINGER_SLACK + log[i].peerLatency
  }

  lemma LingerIsOver(log: seq<Note>, x: SocketId, now: nat)
    ensures LingerEnd(log, x).Some? && now >= LingerEnd(log, x).value <==> LingeredLong(log, x, now)
  {
    LingerClock(log, x);
    hide LingerEnd;
  }

  // ── Overlaps ──

  /** At instant `k` of the journal a member `r`, that since instant `from` was begun to replace `s`
      or was handed it, is open beside it. */
  ghost predicate OverlapAt(log: seq<Note>, from: nat, k: nat, r: SocketId, s: SocketId)
    requires k <= |log|
  {
    && (exists i | from <= i < k :: Takes(log[i]) && log[i].id == r && s in log[i].chain)
    && Ends(r) !in log[..k] && Ends(s) !in log[..k]
  }

  /** Note `i` lets a member replace others of which one is open. */
  ghost predicate TakesOver(log: seq<Note>, i: nat) {
    && i < |log| && Takes(log[i])
    && exists s | s in log[i].chain :: Ends(s) !in log[..i]
  }

  /** Every overlap began with a note that took over an open member. */
  lemma OverlapBegan(log: seq<Note>, from: nat, k: nat, r: SocketId, s: SocketId)
    requires k <= |log| && OverlapAt(log, from, k, r, s)
    ensures exists i | from <= i < k :: TakesOver(log, i) && log[i].id == r && s in log[i].chain
  {
    var i :| from <= i < k && Takes(log[i]) && log[i].id == r && s in log[i].chain;
    assert log[..k][..i] == log[..i];
  }

  lemma PrefixOver(log: seq<Note>, all: seq<Note>, i: nat)
    requires log <= all && i < |log|
    ensures TakesOver(all, i) == TakesOver(log, i)
  {
    assert all[..i] == log[..i];
  }

  lemma OverReaches(log: seq<Note>, i: nat)
    ensures TakesOver(log, i) ==> i < |log|
  {
  }
}
