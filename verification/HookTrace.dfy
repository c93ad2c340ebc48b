/** What libsrt and the allocator are asked to do about access-control hooks, act by act, and what
    must hold after every single act: whatever hook libsrt may run reads a slot that is allocated. */
module HookTrace {
  import opened SrtTypes

  type Slot = nat

  /** `Makes`: a slot is allocated for a socket. `Arms`: libsrt holds its address for that
      socket's hook. `Listens`: the socket may now have callers. `Closes`: srt_close, after which
      no hook of the socket runs or starts. `Frees`: the slot's memory is given back. */
  datatype Act =
    | Makes(slot: Slot, id: SocketId)
    | Arms(id: SocketId, slot: Slot)
    | Listens(id: SocketId)
    | Closes(id: SocketId)
    | Frees(slot: Slot)

  /** Where that leaves things: the slots allocated and whose they are, the hooks libsrt holds, the
      sockets it listens on, those told to close, and the slots freed, in order. */
  datatype Lib = Lib(
    owner: map<Slot, SocketId>,
    hooks: map<SocketId, Slot>,
    listening: set<SocketId>,
    shut: set<SocketId>,
    freed: seq<Slot>)

  const NOTHING := Lib(map[], map[], {}, {}, [])

  function After(l: Lib, a: Act): Lib {
    match a
    case Makes(slot, id) => l.(owner := l.owner[slot := id])
    case Arms(id, slot) => l.(hooks := l.hooks[id := slot])
    case Listens(id) => l.(listening := l.listening + {id})
    case Closes(id) => l.(hooks := l.hooks - {id}, listening := l.listening - {id}, shut := l.shut + {id})
    case Frees(slot) => l.(owner := l.owner - {slot}, freed := l.freed + [slot])
  }

  function Replay(acts: seq<Act>): Lib {
    if acts == [] then NOTHING else After(Replay(acts[..|acts| - 1]), acts[|acts| - 1])
  }

  /** Every hook reads its own socket's slot, still allocated; a listening socket that has a slot
      is armed; and no slot freed is allocated. */
  ghost predicate Safe(l: Lib) {
    && (forall id | id in l.hooks :: l.hooks[id] in l.owner && l.owner[l.hooks[id]] == id)
    && (forall s | s in l.owner :: l.owner[s] in l.listening ==> l.owner[s] in l.hooks)
    && (forall s | s in l.freed :: s !in l.owner)
  }

  /** An act that may be done now: a slot is freed only while allocated, once its socket has been
      told to close and has no hook. */
  ghost predicate Allowed(l: Lib, a: Act) {
    && Safe(After(l, a))
    && (a.Frees? ==> a.slot in l.owner && l.owner[a.slot] in l.shut && l.owner[a.slot] !in l.hooks)
  }

  ghost predicate Allowable(acts: seq<Act>) {
    forall k | 0 <= k < |acts| :: Allowed(Replay(acts[..k]), acts[k])
  }

  lemma AllowableAppend(acts: seq<Act>, a: Act)
    requires Allowable(acts) && Allowed(Replay(acts), a)
    ensures Allowable(acts + [a]) && Replay(acts + [a]) == After(Replay(acts), a)
  {
    var all := acts + [a];
    assert all[..|acts|] == acts;
    hide Allowed;
    forall k | 0 <= k < |all| ensures Allowed(Replay(all[..k]), all[k]) {
      if k < |acts| { assert all[..k] == acts[..k]; }
    }
  }

  /** After every act everything is safe. */
  lemma SafeThroughout(acts: seq<Act>, k: nat)
    requires Allowable(acts) && k <= |acts|
    ensures Safe(Replay(acts[..k]))
  {
    if k > 0 {
      assert acts[..k][..k - 1] == acts[..k - 1];
      assert Allowed(Replay(acts[..k - 1]), acts[k - 1]);
    }
  }

  /** A socket told to close and without a hook was told so after its last arming. */
  lemma {:induction false} ShutLast(acts: seq<Act>, id: SocketId)
    requires id in Replay(acts).shut && id !in Replay(acts).hooks
    ensures exists j | 0 <= j < |acts| ::
              acts[j] == Closes(id) && forall m | j < m < |acts| :: !(acts[m].Arms? && acts[m].id == id)
  {
    var n := |acts| - 1;
    if acts[n] != Closes(id) {
      ShutLast(acts[..n], id);
      var j :| 0 <= j < n && acts[..n][j] == Closes(id) &&
               forall m | j < m < n :: !(acts[..n][m].Arms? && acts[..n][m].id == id);
      forall m | j < m < n ensures !(acts[m].Arms? && acts[m].id == id) { assert acts[..n][m] == acts[m]; }
      assert acts[j] == Closes(id);
    }
  }

  lemma {:induction false} OwnerWasMade(acts: seq<Act>, s: Slot)
    requires s in Replay(acts).owner
    ensures Makes(s, Replay(acts).owner[s]) in acts
  {
    var n := |acts| - 1;
    if acts[n] != Makes(s, Replay(acts).owner[s]) { OwnerWasMade(acts[..n], s); }
  }

  lemma {:induction false} FreedStays(acts: seq<Act>, i: nat, k: nat)
    requires i < k <= |acts| && acts[i].Frees?
    ensures acts[i].slot in Replay(acts[..k]).freed
  {
    assert acts[..k][..k - 1] == acts[..k - 1];
    if i < k - 1 { FreedStays(acts, i, k - 1); }
  }

  /** Act `j` tells `id` to close, and up to act `i` its hook is not armed again. */
  ghost predicate ClosedFor(acts: seq<Act>, j: nat, i: nat, id: SocketId)
    requires i <= |acts|
  {
    j < i && acts[j] == Closes(id) && forall m | j < m < i :: !(acts[m].Arms? && acts[m].id == id)
  }

  /** A slot is freed after its own socket was told to close, with no arming of that socket in
      between. */
  lemma FreedAfterClose(acts: seq<Act>, i: nat)
    requires Allowable(acts) && i < |acts| && acts[i].Frees?
    ensures exists j: nat, id :: ClosedFor(acts, j, i, id) && Makes(acts[i].slot, id) in acts[..i]
  {
    var s, before := acts[i].slot, acts[..i];
    assert Allowed(Replay(before), acts[i]);
    var id := Replay(before).owner[s];
    ShutLast(before, id);
    OwnerWasMade(before, s);
    hide Replay, Allowed, Allowable;
    ClosedInPrefix(acts, i, id);
  }

  lemma ClosedInPrefix(acts: seq<Act>, i: nat, id: SocketId)
    requires i <= |acts|
    requires exists j | 0 <= j < i ::
               acts[..i][j] == Closes(id) && forall m | j < m < i :: !(acts[..i][m].Arms? && acts[..i][m].id == id)
    ensures exists j: nat :: ClosedFor(acts, j, i, id)
  {
    var j :| 0 <= j < i && acts[..i][j] == Closes(id) &&
             forall m | j < m < i :: !(acts[..i][m].Arms? && acts[..i][m].id == id);
    forall m | j <= m < i ensures acts[m] == acts[..i][m] {}
    assert ClosedFor(acts, j, i, id);
  }

  /** Once freed a slot is never armed, and never freed again. */
  lemma FreedForGood(acts: seq<Act>, i: nat, m: nat)
    requires Allowable(acts) && i < m < |acts| && acts[i].Frees?
    ensures acts[m] != acts[i] && !(acts[m].Arms? && acts[m].slot == acts[i].slot)
  {
    FreedStays(acts, i, m);
    SafeThroughout(acts, m);
    var at := Replay(acts[..m]);
    assert Allowed(at, acts[m]);
    hide Replay;
    if acts[m].Arms? { assert acts[m].id in After(at, acts[m]).hooks; }
  }
}
