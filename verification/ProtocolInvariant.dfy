// The invariant of the key-value protocol, over an abstraction that forgets
// where on a link a message sits and applies a pending grant at once.
module ProtocolInvariant {
  import opened Messages
  import opened History
  import opened ServerStore
  import opened Protocol

  // The one message a conversation may have outstanding.
  datatype Token = Quiet | ToServer(msg: Msg) | ToClient(msg: Msg) | Jam

  datatype View = View(phase: Phase, token: Token)

  // Server memory and history. In `db` a grant already counts while the server
  // is still in the window between posting it and updating the database.
  datatype World = World(
    db: map<CString, Entry>, regions: map<nat, Region>, heap: map<nat, seq<byte>>,
    ext: seq<Event>, lin: seq<Commit>)

  datatype Hold = Hold(key: CString, access: Access)

  // The grant a client holds: from the moment it is posted until the server
  // takes up the FIN.
  function Held(v: View): Option<Hold> {
    match v.phase
    case SetGrantWait(_, k, _) =>
      if v.token.ToClient? && v.token.msg.SetGrant? then Some(Hold(k, RemoteWrite)) else None
    case SetWriting(_, k, _, _, _, _) => Some(Hold(k, RemoteWrite))
    case SetFinWait(_, k, _) => if v.token.ToServer? then Some(Hold(k, RemoteWrite)) else None
    case GetWait(_, k) =>
      if v.token.ToClient? && v.token.msg.GetGrant? then Some(Hold(k, RemoteRead)) else None
    case GetReading(_, k, _, _, _, _) => Some(Hold(k, RemoteRead))
    case GetFinWait(_, k, _) => if v.token.ToServer? then Some(Hold(k, RemoteRead)) else None
    case _ => None
  }

  // The entry of k is locked by client i with this registration.
  predicate Granted(w: World, i: nat, k: CString, va: nat, rkey: nat, size: nat, access: Access) {
    && k in w.db && w.db[k] == Entry(va, size, Some(rkey))
    && rkey in w.regions && w.regions[rkey] == Region(i, va, size, access)
    && va in w.heap && |w.heap[va]| == size
  }

  // Call `id` of client i is under way.
  predicate Open(ext: seq<Event>, i: nat, id: nat, op: Op) {
    && id < |ext| && ext[id] == Invoke(i, op)
    && forall n | 0 <= n < |ext| && ext[n].Return? :: ext[n].id != id
  }

  predicate Uncommitted(lin: seq<Commit>, id: nat) {
    forall c | c in lin :: c.id != id
  }

  // A reply that ends a call, and the answer the client will make of it.
  function FinalAnswer(p: Phase, m: Msg): Option<Answer>
    requires Active(p)
  {
    match (p, m)
    case (SetEagerWait(_, _, _), InProgress) => Some(Busy)
    case (SetEagerWait(_, _, _), SetSuccessful) => Some(Stored)
    case (SetGrantWait(_, _, _), InProgress) => Some(Busy)
    case (SetFinWait(_, _, _), SetSuccessful) => Some(Stored)
    case (GetWait(_, _), InProgress) => Some(Busy)
    case (GetWait(_, _), KeyNotFound) => Some(Missing)
    case (GetWait(_, _), GetEager(v)) => Some(Found(v))
    case (GetFinWait(_, _, local), GetSuccessful) => Some(Found(CStr(local)))
    case _ => None
  }

  // What a request in flight must be.
  predicate RequestOk(p: Phase, m: Msg) {
    match p
    case SetEagerWait(_, k, v) => EagerGuard(k, v) && m == SetEager(k, |v| + 1, v)
    case SetGrantWait(_, k, v) => !EagerGuard(k, v) && m == SetRendezvous(k, |v| + 1)
    case SetFinWait(_, k, _) => m == SetFin(k)
    case GetWait(_, k) => m == GetKey(k)
    case GetFinWait(_, k, _) => m == GetFin(k)
    case _ => false
  }

  // The data of a held grant, as the client and the server see it.
  predicate HoldOk(v: View, i: nat, w: World)
    requires Held(v).Some?
  {
    match v.phase
    case SetGrantWait(id, k, value) =>
      Uncommitted(w.lin, id) &&
      Granted(w, i, k, v.token.msg.va, v.token.msg.rkey, |value| + 1, RemoteWrite)
    case SetWriting(id, k, value, va, rkey, todo) =>
      && Uncommitted(w.lin, id)
      && Granted(w, i, k, va, rkey, |value| + 1, RemoteWrite)
      && (forall x | x in todo :: x <= |value|)
      && (forall x | 0 <= x <= |value| && x !in todo :: w.heap[va][x] == (value + [0])[x])
    case SetFinWait(id, k, value) =>
      && Uncommitted(w.lin, id)
      && k in w.db && w.db[k].mr.Some?
      && Granted(w, i, k, w.db[k].addr, w.db[k].mr.value, |value| + 1, RemoteWrite)
      && w.heap[w.db[k].addr] == value + [0]
    case GetWait(id, k) =>
      && Granted(w, i, k, v.token.msg.va, v.token.msg.rkey, v.token.msg.size, RemoteRead)
      && Commit(id, Get(k), Found(CStr(w.heap[v.token.msg.va]))) in w.lin
    case GetReading(id, k, va, rkey, local, todo) =>
      && Granted(w, i, k, va, rkey, |local|, RemoteRead)
      && Commit(id, Get(k), Found(CStr(w.heap[va]))) in w.lin
      && (forall x | x in todo :: x < |local|)
      && (forall x | 0 <= x < |local| && x !in todo :: local[x] == w.heap[va][x])
    case GetFinWait(id, k, local) =>
      && k in w.db && w.db[k].mr.Some?
      && Granted(w, i, k, w.db[k].addr, w.db[k].mr.value, |local|, RemoteRead)
      && Commit(id, Get(k), Found(CStr(local))) in w.lin
    case _ => false
  }

  predicate ClientOk(v: View, i: nat, w: World) {
    if v.phase.Idle? then v.token.Quiet?
    else if v.phase.Closed? then v.token.Quiet? || v.token == ToServer(ShutDown)
    else if v.phase.Broken? then false
    else
      && Open(w.ext, i, v.phase.id, OpOf(v.phase))
      && OpFits(OpOf(v.phase))
      && (if Held(v).Some? then
            HoldOk(v, i, w) && (v.token.ToServer? ==> RequestOk(v.phase, v.token.msg))
            && ((v.phase.SetWriting? || v.phase.GetReading?) ==> v.token.Quiet?)
          else
            match v.token
            case ToServer(m) => RequestOk(v.phase, m) && Uncommitted(w.lin, v.phase.id)
            case ToClient(m) =>
              FinalAnswer(v.phase, m).Some? && Fits(m) &&
              Commit(v.phase.id, OpOf(v.phase), FinalAnswer(v.phase, m).value) in w.lin
            case _ => false)
  }

  // A locked entry is registered, and its registration is a grant held by the
  // client that owns it.
  predicate LocksOk(views: seq<View>, w: World) {
    forall k | k in w.db && w.db[k].mr.Some? ::
      && w.db[k].mr.value in w.regions
      && var g := w.regions[w.db[k].mr.value];
         g.pd < |views| && Held(views[g.pd]) == Some(Hold(k, g.access))
  }

  // Every registration is the lock of the key its owner holds.
  predicate RegionsOk(views: seq<View>, w: World) {
    forall r | r in w.regions ::
      && r < TWO_TO_32
      && w.regions[r].pd < |views|
      && Held(views[w.regions[r].pd]).Some?
      && var k := Held(views[w.regions[r].pd]).value.key;
         k in w.db && w.db[k].mr == Some(r)
  }

  predicate DistinctBlocks(db: map<CString, Entry>) {
    forall k, l | k in db && l in db && k != l :: db[k].addr != db[l].addr
  }

  predicate MemoryOk(w: World) {
    && (forall k | k in w.db ::
          && w.db[k].addr in w.heap && |w.heap[w.db[k].addr]| == w.db[k].size
          && w.db[k].addr < TWO_TO_64 && w.db[k].size < TWO_TO_32)
    && DistinctBlocks(w.db)
  }

  predicate WriteLocked(w: World, k: CString) {
    && k in w.db && w.db[k].mr.Some? && w.db[k].mr.value in w.regions
    && w.regions[w.db[k].mr.value].access.RemoteWrite?
  }

  // Outside a rendezvous set, the block of a key holds the terminated value
  // that the calls so far gave it.
  predicate DataOk(w: World)
    requires MemoryOk(w) && Replay(w.lin).Some?
  {
    var table := Replay(w.lin).value;
    && (forall k | k in table :: k in w.db)
    && (forall k | k in w.db && !WriteLocked(w, k) ::
          k in table && w.heap[w.db[k].addr] == table[k] + [0])
  }

  predicate Inv(views: seq<View>, w: World) {
    && (forall i | 0 <= i < |views| :: ClientOk(views[i], i, w))
    && LocksOk(views, w) && RegionsOk(views, w) && MemoryOk(w)
    && IsLinearization(w.ext, w.lin) && ReturnsOnce(w.ext)
    && DataOk(w)
  }

  // ----- framing: what other clients may change -------------------------------

  predicate SameGrant(v: View, w: World, w': World) {
    Held(v).Some? ==>
      var k := Held(v).value.key;
      && k in w.db && k in w'.db && w'.db[k] == w.db[k]
      && w.db[k].addr in w.heap && w.db[k].addr in w'.heap
      && w'.heap[w.db[k].addr] == w.heap[w.db[k].addr]
      && (w.db[k].mr.Some? && w.db[k].mr.value in w.regions ==>
            w.db[k].mr.value in w'.regions
            && w'.regions[w.db[k].mr.value] == w.regions[w.db[k].mr.value])
  }

  // The histories of w' extend those of w by events of other calls only.
  predicate Extends(w: World, w': World, id: nat) {
    && w.ext <= w'.ext && w.lin <= w'.lin
    && (forall n | |w.ext| <= n < |w'.ext| && w'.ext[n].Return? :: w'.ext[n].id != id)
    && (forall n | |w.lin| <= n < |w'.lin| :: w'.lin[n].id != id)
  }

  lemma PrefixMember<T>(s: seq<T>, t: seq<T>, x: T)
    requires s <= t && x in s
    ensures x in t
  {
    var n :| 0 <= n < |s| && s[n] == x;
    assert t[n] == x;
  }

  lemma ClientFrame(v: View, i: nat, w: World, w': World)
    requires ClientOk(v, i, w)
    requires SameGrant(v, w, w')
    requires Active(v.phase) ==> Extends(w, w', v.phase.id)
    ensures ClientOk(v, i, w')
  {
    if Active(v.phase) {
      var id, op := v.phase.id, OpOf(v.phase);
      assert Open(w'.ext, i, id, op);
      if Uncommitted(w.lin, id) {
        forall c | c in w'.lin
          ensures c.id != id
        {
          var n :| 0 <= n < |w'.lin| && w'.lin[n] == c;
          if n < |w.lin| {
            assert c == w.lin[n] && c in w.lin;
          }
        }
        assert Uncommitted(w'.lin, id);
      }
      forall answer | Commit(id, op, answer) in w.lin
        ensures Commit(id, op, answer) in w'.lin
      {
        PrefixMember(w.lin, w'.lin, Commit(id, op, answer));
      }
    }
  }
}
