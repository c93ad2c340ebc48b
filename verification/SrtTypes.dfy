/** The vocabulary shared by the model: socket and member states, the group listing, and a
    few facts about sequences. Times are milliseconds. */
module SrtTypes {

  type SocketId = int

  datatype Option<+T> = None | Some(value: T) {
    function GetOr(default: T): T {
      if Some? then value else default
    }
  }

  datatype SocketStatus =
    | Init | Opened | Listening | Connecting | Connected | Broken | Closing | Closed | NonExist

  datatype MemberStatus = Pending | Idle | Running | Broken

  /** The states from which no further I/O is possible. */
  predicate IsTerminal(s: SocketStatus) {
    s in {SocketStatus.Broken, Closing, Closed, NonExist}
  }

  /** What a member is connected with; `target` stands for address, source and weight. */
  datatype Endpoint = Endpoint(target: nat, token: int)

  /** One row of the group listing: the member's state, and the socket state listed with it. */
  datatype Row = Row(id: SocketId, token: int, member: MemberStatus, listed: SocketStatus)

  /** One instant of libsrt's live socket states; an id it does not know reads NonExist. */
  type Sockets = map<SocketId, SocketStatus>

  function SockState(live: Sockets, id: SocketId): SocketStatus {
    if id in live then live[id] else NonExist
  }

  /** The first row listing `id`. */
  function FindRow(rows: seq<Row>, id: SocketId): (r: Option<Row>)
    ensures r.Some? ==> r.value in rows && r.value.id == id
    ensures r.None? ==> forall q | q in rows :: q.id != id
  {
    if rows == [] then None
    else if rows[0].id == id then Some(rows[0])
    else FindRow(rows[1..], id)
  }

  /** Remove element `i`, filling its place with the last one. */
  function SwapRemove<T>(s: seq<T>, i: nat): (r: seq<T>)
    requires i < |s|
    ensures |r| == |s| - 1
  {
    s[i := s[|s| - 1]][..|s| - 1]
  }

  lemma SwapRemoveElems<T>(s: seq<T>, i: nat)
    requires i < |s|
    ensures forall x | x in SwapRemove(s, i) :: x in s
    ensures forall x | x in s :: x == s[i] || x in SwapRemove(s, i)
  {
    var r := SwapRemove(s, i);
    assert forall k | 0 <= k < |r| :: r[k] == s[if k == i then |s| - 1 else k];
    forall x | x in s && x != s[i] ensures x in r {
      var k :| 0 <= k < |s| && s[k] == x;
      assert r[if k == |s| - 1 then i else k] == x;
    }
  }
}
