/** How one look judges a watched member, and the clocks that decide when it is acted on. */
module Watch {
  import opened SrtTypes

  const STRANDED_MEMBER_GRACE := 500
  const MAX_STRANDED_REPAIRS := 3
  const HANDSHAKE_TTL_SLACK := 1000
  const DEFAULT_CONNECT_TIMEOUT := 3000
  const MASKED_MEMBER_RECHECK := 1000
  const SUPERSEDED_LINGER_SLACK := 1000

  datatype Watched = Watched(
    id: SocketId,
    endpoint: Endpoint,
    live: SocketStatus,
    notBefore: nat,
    resolveBy: nat,
    strandedSince: Option<nat>,
    repairs: nat,
    supersedes: seq<SocketId>,
    closeSupersededAt: Option<nat>,
    forced: bool)

  /** `conntimeo`: the member's SRTO_CONNTIMEO, or any value <= 0 when it cannot be read. */
  function ConnectTimeout(conntimeo: int): nat {
    if conntimeo <= 0 then DEFAULT_CONNECT_TIMEOUT else conntimeo
  }

  /** A member just spawned into a group. */
  function Spawned(id: SocketId, endpoint: Endpoint, now: nat, conntimeo: int): Watched {
    Watched(id, endpoint, Init, now, now + ConnectTimeout(conntimeo) + HANDSHAKE_TTL_SLACK,
            None, 0, [], None, false)
  }

  /** How long superseded members stay after their replacement's first up reading: the longer of
      its two latencies, none when it cannot be read, and a second. */
  function LingerTime(rcvLatency: int, peerLatency: int): nat {
    var longer := if rcvLatency >= peerLatency then rcvLatency else peerLatency;
    (if longer < 0 then 0 else longer) + SUPERSEDED_LINGER_SLACK
  }

  datatype Verdict = Gone | BrokenLive | Stranded | Confirmed | Masked | Handshaking

  /** Judge a member by its live socket state, read first, and its row, read after. */
  function ClassifyWatched(live: SocketStatus, row: Option<Row>, forced: bool, backup: bool): Verdict {
    match row
    case None => Gone
    case Some(r) =>
      if r.member == MemberStatus.Broken then
        if live == Connected then BrokenLive else Gone
      else if live == Connected && (forced || r.member == Pending || r.listed == Connecting) then
        Stranded
      else if r.listed == Connected && r.member == Idle then Confirmed
      else if r.listed == Connected && r.member == Running then
        if backup then Masked else Confirmed
      else Handshaking
  }

  datatype Step = Keep | Recheck(at: nat) | Drop | Abandon | Repair

  /** What one look makes of a member and its clocks, and the step to take. Anything it still
      supersedes keeps a member watched. */
  function NextStep(w: Watched, verdict: Verdict, now: nat): (Watched, Step) {
    match verdict
    case Gone => (w, Drop)
    case Stranded | BrokenLive =>
      var since := w.strandedSince.GetOr(now);
      (w.(strandedSince := Some(since)),
       if now - since >= STRANDED_MEMBER_GRACE then Repair else Keep)
    case Confirmed =>
      (w.(strandedSince := None), if w.supersedes == [] then Drop else Keep)
    case Masked =>
      (w.(strandedSince := None),
       if w.supersedes == [] then Recheck(now + MASKED_MEMBER_RECHECK) else Keep)
    case Handshaking =>
      (w.(strandedSince := None),
       if now < w.resolveBy then Keep
       else if IsTerminal(w.live) then Abandon
       else Repair)
  }
}
