/** Connecting endpoints into a group. A member libsrt reports failed but keeps in the group is
    claimed from the listing taken after the call. */
module ConnectGroup {
  import opened SrtTypes
  import opened CheckGroup
  import opened GroupRuns

  datatype Error = InvalidParam | ConnectionLost | Code(code: int)

  datatype Outcome = Ok(id: SocketId) | Err(error: Error)

  /** What libsrt left in one endpoint's record: an id, or an error code, or neither. */
  datatype Target = Target(id: int, errorcode: int, token: int)

  /** The record alone: libsrt's own word on the endpoint. */
  function Reported(t: Target): Outcome {
    if t.id >= 0 && t.errorcode == 0 then Ok(t.id)
    else if t.errorcode != 0 then Err(Code(t.errorcode))
    else Err(ConnectionLost)
  }

  /** No id and no error: libsrt may have kept the member. */
  predicate Unclear(t: Target) { t.id < 0 && t.errorcode == 0 }

  function RowIds(rows: seq<Row>): seq<SocketId> {
    seq(|rows|, i requires 0 <= i < |rows| => rows[i].id)
  }

  predicate Claimable(r: Row, token: int, before: seq<SocketId>, claimed: seq<SocketId>) {
    r.token == token && r.id !in before && r.id !in claimed
  }

  function FirstClaimable(rows: seq<Row>, token: int, before: seq<SocketId>, claimed: seq<SocketId>)
    : (kept: Option<SocketId>)
    ensures kept.Some? ==>
              exists f | 0 <= f < |rows| ::
                && rows[f].id == kept.value && Claimable(rows[f], token, before, claimed)
                && forall j | 0 <= j < f :: !Claimable(rows[j], token, before, claimed)
    ensures kept.None? ==> forall r | r in rows :: !Claimable(r, token, before, claimed)
  {
    if rows == [] then None
    else if Claimable(rows[0], token, before, claimed) then Some(rows[0].id)
    else
      assert forall j | 1 <= j < |rows| :: rows[j] == rows[1..][j - 1];
      FirstClaimable(rows[1..], token, before, claimed)
  }

  ghost predicate DistinctOk(members: seq<Outcome>) {
    forall i, j | 0 <= i < j < |members| && members[i].Ok? && members[j].Ok? :: members[i].id != members[j].id
  }

  /** `x` is given out before record `i` gets its turn to claim: by a record of libsrt's own word,
      or by an earlier claim. */
  ghost predicate Taken(members: seq<Outcome>, targets: seq<Target>, i: nat, x: SocketId)
    requires |members| == |targets|
  {
    exists k | 0 <= k < |members| ::
      (k < i || targets[k].id >= 0 || targets[k].errorcode != 0) && members[k] == Ok(x)
  }

  /** Listed after the call with the record's token, not before it, and not given out. */
  ghost predicate Fits(r: Row, members: seq<Outcome>, targets: seq<Target>, before: seq<Row>, i: nat)
    requires i < |members| == |targets|
  {
    r.token == targets[i].token && (forall b | b in before :: b.id != r.id) && !Taken(members, targets, i, r.id)
  }

  /** Record `i` got the first listed member that fits, or is lost for want of one. */
  ghost predicate FirstFit(members: seq<Outcome>, targets: seq<Target>, before: seq<Row>, after: seq<Row>, i: nat)
    requires i < |members| == |targets|
  {
    if exists r | r in after :: Fits(r, members, targets, before, i)
    then exists f | 0 <= f < |after| ::
           && members[i] == Ok(after[f].id) && Fits(after[f], members, targets, before, i)
           && forall j | 0 <= j < f :: !Fits(after[j], members, targets, before, i)
    else members[i] == Err(ConnectionLost)
  }

  /** Later claims do not change who was taken. */
  lemma TakenStays(members: seq<Outcome>, now: seq<Outcome>, targets: seq<Target>, i: nat)
    requires |members| == |now| == |targets|
    requires forall k | 0 <= k < |members| && (k < i || !Unclear(targets[k])) :: members[k] == now[k]
    ensures forall x :: Taken(members, targets, i, x) == Taken(now, targets, i, x)
  {
  }

  lemma FirstFitStays(members: seq<Outcome>, now: seq<Outcome>, targets: seq<Target>, before: seq<Row>,
                      after: seq<Row>, i: nat)
    requires i < |members| == |now| == |targets| && FirstFit(members, targets, before, after, i)
    requires forall k | 0 <= k < |members| && (k <= i || !Unclear(targets[k])) :: members[k] == now[k]
    ensures FirstFit(now, targets, before, after, i)
  {
    TakenStays(members, now, targets, i);
    forall r: Row ensures Fits(r, members, targets, before, i) == Fits(r, now, targets, before, i) {}
    hide Taken, Fits;
  }

  lemma ClaimKeepsOthers(was: seq<Outcome>, i: nat, id: SocketId)
    requires i < |was| && was[i].Err?
    ensures var now := was[i := Ok(id)];
            && (forall x :: Ok(x) in now <==> x == id || Ok(x) in was)
            && (DistinctOk(was) && Ok(id) !in was ==> DistinctOk(now))
  {
    var now := was[i := Ok(id)];
    assert now[i] == Ok(id);
    forall x | Ok(x) in was ensures Ok(x) in now {
      var k :| 0 <= k < |was| && was[k] == Ok(x);
      assert now[k] == Ok(x);
    }
  }

  /** The claims are made for the first `n` records: `claimed` lists the members given out. */
  ghost predicate ClaimsTo(members: seq<Outcome>, claimed: seq<SocketId>, reported: seq<Outcome>,
                           targets: seq<Target>, before: seq<Row>, after: seq<Row>, n: nat)
    requires n <= |members| == |targets|
  {
    && reported == seq(|targets|, i requires 0 <= i < |targets| => Reported(targets[i]))
    && (forall k | 0 <= k < |members| && (n <= k || !Unclear(targets[k])) :: members[k] == reported[k])
    && (forall x :: x in claimed <==> Ok(x) in members)
    && (forall k: nat | k < n && Unclear(targets[k]) :: FirstFit(members, targets, before, after, k))
    && (DistinctOk(reported) ==> DistinctOk(members))
  }

  lemma ClaimedIsTaken(members: seq<Outcome>, claimed: seq<SocketId>, reported: seq<Outcome>,
                       targets: seq<Target>, before: seq<Row>, after: seq<Row>, n: nat)
    requires n < |members| == |targets|
    requires ClaimsTo(members, claimed, reported, targets, before, after, n)
    ensures forall x :: x in claimed <==> Taken(members, targets, n, x)
    ensures forall r :: Fits(r, members, targets, before, n) <==>
                        Claimable(r, targets[n].token, RowIds(before), claimed)
  {
    hide FirstFit, DistinctOk;
    forall x | Ok(x) in members ensures Taken(members, targets, n, x) {
      var k :| 0 <= k < |members| && members[k] == Ok(x);
    }
    hide Taken;
    NotBefore(before);
    hide RowIds;
  }

  lemma NotBefore(before: seq<Row>)
    ensures forall id :: id !in RowIds(before) <==> forall b | b in before :: b.id != id
  {
    forall b | b in before ensures b.id in RowIds(before) {
      var k :| 0 <= k < |before| && before[k] == b;
      assert RowIds(before)[k] == b.id;
    }
  }

  lemma ClaimNext(members: seq<Outcome>, claimed: seq<SocketId>, reported: seq<Outcome>,
                  targets: seq<Target>, before: seq<Row>, after: seq<Row>, n: nat)
    requires n < |members| == |targets| && Unclear(targets[n])
    requires ClaimsTo(members, claimed, reported, targets, before, after, n)
    ensures var kept := FirstClaimable(after, targets[n].token, RowIds(before), claimed);
            if kept.None? then ClaimsTo(members, claimed, reported, targets, before, after, n + 1)
            else ClaimsTo(members[n := Ok(kept.value)], claimed + [kept.value], reported, targets, before, after, n + 1)
  {
    var kept := FirstClaimable(after, targets[n].token, RowIds(before), claimed);
    var now := if kept.None? then members else members[n := Ok(kept.value)];
    ClaimIsFirst(members, claimed, reported, targets, before, after, n);
    hide FirstClaimable;
    forall k: nat | k < n && Unclear(targets[k]) ensures FirstFit(now, targets, before, after, k) {
      FirstFitStays(members, now, targets, before, after, k);
    }
    hide FirstFit;
    if kept.Some? { ClaimKeepsOthers(members, n, kept.value); }
    hide DistinctOk;
  }

  lemma ClaimIsFirst(members: seq<Outcome>, claimed: seq<SocketId>, reported: seq<Outcome>,
                     targets: seq<Target>, before: seq<Row>, after: seq<Row>, n: nat)
    requires n < |members| == |targets| && Unclear(targets[n])
    requires ClaimsTo(members, claimed, reported, targets, before, after, n)
    ensures var kept := FirstClaimable(after, targets[n].token, RowIds(before), claimed);
            FirstFit(if kept.None? then members else members[n := Ok(kept.value)], targets, before, after, n)
            && (kept.Some? ==> kept.value !in claimed)
  {
    var kept := FirstClaimable(after, targets[n].token, RowIds(before), claimed);
    ClaimedIsTaken(members, claimed, reported, targets, before, after, n);
    var now := if kept.None? then members else members[n := Ok(kept.value)];
    TakenStays(members, now, targets, n);
    assert kept.None? ==> members[n] == Err(ConnectionLost);
    hide ClaimsTo;
    forall r: Row ensures Fits(r, members, targets, before, n) == Fits(r, now, targets, before, n) {}
    hide Fits, Taken, RowIds;
  }

  lemma ClearNext(members: seq<Outcome>, claimed: seq<SocketId>, reported: seq<Outcome>,
                  targets: seq<Target>, before: seq<Row>, after: seq<Row>, n: nat)
    requires n < |members| == |targets| && !Unclear(targets[n])
    requires ClaimsTo(members, claimed, reported, targets, before, after, n)
    ensures ClaimsTo(members, claimed, reported, targets, before, after, n + 1)
  {
    hide FirstFit, DistinctOk;
  }

  /** `ret` and `callError` are the call's return value and error; `targets` the records it left.
      The call is refused with the first record's error, or its own. Every record with an id or an
      error is returned as it is; any other claims the first newly listed member with its token
      that is not given out yet. With distinct ids reported no member is given to two endpoints. */
  method Connect(endpoints: seq<Endpoint>, before: seq<Row>, ret: int, callError: int,
                 targets: seq<Target>, after: seq<Row>)
    returns (refused: Option<Error>, members: seq<Outcome>)
    requires |targets| == |endpoints|
    ensures endpoints == [] ==> refused == Some(InvalidParam)
    ensures endpoints != [] ==> (refused.Some? <==> ret < 0)
    ensures endpoints != [] && ret < 0 && (forall t | t in targets :: t.errorcode == 0) ==>
              refused == Some(Code(callError))
    ensures endpoints != [] && ret < 0 ==>
              forall f | 0 <= f < |targets| && targets[f].errorcode != 0
                         && (forall j | 0 <= j < f :: targets[j].errorcode == 0) ::
                refused == Some(Code(targets[f].errorcode))
    ensures |members| == |targets|
    ensures forall i | 0 <= i < |targets| && targets[i].errorcode != 0 :: members[i] == Err(Code(targets[i].errorcode))
    ensures forall i | 0 <= i < |targets| && targets[i].errorcode == 0 && targets[i].id >= 0 ::
              members[i] == Ok(targets[i].id)
    ensures forall i: nat | i < |targets| && targets[i].errorcode == 0 && targets[i].id < 0 ::
              FirstFit(members, targets, before, after, i)
    ensures (forall i, j | 0 <= i < j < |targets| && targets[i].errorcode == 0 && targets[j].errorcode == 0
                           && targets[i].id >= 0 && targets[j].id >= 0 :: targets[i].id != targets[j].id) ==>
              DistinctOk(members)
  {
    if endpoints == [] {
      return Some(InvalidParam), [];
    }
    refused := None;
    if ret < 0 {
      refused := Some(Code(callError));
      for i := 0 to |targets|
        invariant refused == Some(Code(callError))
        invariant forall k | 0 <= k < i :: targets[k].errorcode == 0
      {
        if targets[i].errorcode != 0 {
          refused := Some(Code(targets[i].errorcode));
          break;
        }
      }
    }
    members := seq(|targets|, i requires 0 <= i < |targets| => Reported(targets[i]));
    ghost var reported := members;
    var claimed: seq<SocketId> := [];
    for i := 0 to |members|
      invariant forall x :: x in claimed <==> Ok(x) in members[..i]
    {
      assert members[..i+1] == members[..i] + [members[i]];
      if members[i].Ok? { claimed := claimed + [members[i].id]; }
    }
    assert members[..|members|] == members;
    for i := 0 to |targets|
      invariant |members| == |targets|
      invariant ClaimsTo(members, claimed, reported, targets, before, after, i)
    {
      hide ClaimsTo, RowIds;
      if Unclear(targets[i]) {
        ClaimNext(members, claimed, reported, targets, before, after, i);
        var kept := FirstClaimable(after, targets[i].token, RowIds(before), claimed);
        if kept.Some? {
          claimed := claimed + [kept.value];
          members := members[i := Ok(kept.value)];
        }
      } else {
        ClearNext(members, claimed, reported, targets, before, after, i);
      }
    }
    hide FirstFit;
  }

  /** The endpoints that have a member, with it. */
  function Watchable(endpoints: seq<Endpoint>, members: seq<Outcome>, conntimeo: seq<int>): seq<Joined>
    requires |endpoints| == |members| == |conntimeo|
  {
    if members == [] then []
    else
      var n := |members| - 1;
      Watchable(endpoints[..n], members[..n], conntimeo[..n]) +
      if members[n].Ok? then [Joined(members[n].id, endpoints[n], conntimeo[n])] else []
  }

  lemma {:induction false} WatchableMembers(endpoints: seq<Endpoint>, members: seq<Outcome>, conntimeo: seq<int>,
                                            j: Joined)
    requires |endpoints| == |members| == |conntimeo|
    requires j in Watchable(endpoints, members, conntimeo)
    ensures exists i | 0 <= i < |members| ::
              members[i] == Ok(j.id) && endpoints[i] == j.endpoint && conntimeo[i] == j.conntimeo
  {
    var n := |members| - 1;
    if j in Watchable(endpoints[..n], members[..n], conntimeo[..n]) {
      WatchableMembers(endpoints[..n], members[..n], conntimeo[..n], j);
    }
  }

  /** The members watched are those the connect left, each with its own endpoint and timeout. */
  lemma {:induction false} WatchesExactly(endpoints: seq<Endpoint>, members: seq<Outcome>, conntimeo: seq<int>,
                                          j: Joined)
    requires |endpoints| == |members| == |conntimeo|
    ensures j in Watchable(endpoints, members, conntimeo) <==>
            exists i | 0 <= i < |members| ::
              members[i] == Ok(j.id) && endpoints[i] == j.endpoint && conntimeo[i] == j.conntimeo
    ensures |Watchable(endpoints, members, conntimeo)| <= |members|
    ensures (forall m | m in members :: m.Ok?) ==> |Watchable(endpoints, members, conntimeo)| == |members|
  {
    if members != [] {
      var n := |members| - 1;
      WatchesExactly(endpoints[..n], members[..n], conntimeo[..n], j);
      if i :| 0 <= i < |members| && members[i] == Ok(j.id) && endpoints[i] == j.endpoint
              && conntimeo[i] == j.conntimeo && i < n {
        assert members[..n][i] == Ok(j.id) && endpoints[..n][i] == j.endpoint && conntimeo[..n][i] == j.conntimeo;
      }
      if j in Watchable(endpoints, members, conntimeo) { WatchableMembers(endpoints, members, conntimeo, j); }
    }
  }

  /** With distinct tokens, a connect's distinct members are a good start for a run. */
  lemma {:induction false} ConnectIsGoodStart(endpoints: seq<Endpoint>, members: seq<Outcome>, conntimeo: seq<int>,
                                              tok: SocketId -> int)
    requires |endpoints| == |members| == |conntimeo| && DistinctOk(members)
    requires forall i, j | 0 <= i < j < |endpoints| :: endpoints[i].token != endpoints[j].token
    requires forall i | 0 <= i < |members| && members[i].Ok? :: tok(members[i].id) == endpoints[i].token
    ensures GoodStart(Watchable(endpoints, members, conntimeo), tok)
  {
    var n := |members| - 1;
    if members != [] {
      ConnectIsGoodStart(endpoints[..n], members[..n], conntimeo[..n], tok);
      var init := Watchable(endpoints[..n], members[..n], conntimeo[..n]);
      forall j | j in init && members[n].Ok?
        ensures j.id != members[n].id && j.endpoint.token != endpoints[n].token
      {
        WatchableMembers(endpoints[..n], members[..n], conntimeo[..n], j);
      }
    }
  }
}
