// Every abstract transition keeps the protocol invariant.
module ProtocolSteps {
  import opened Messages
  import opened History
  import opened ServerStore
  import opened Protocol
  import opened ProtocolInvariant

  // The histories grow at most by events of client i's current call.
  predicate GrowsFor(v: View, w: World, w': World) {
    && w.ext <= w'.ext && w.lin <= w'.lin
    && (forall n | |w.ext| <= n < |w'.ext| && w'.ext[n].Return? ::
          Active(v.phase) && w'.ext[n].id == v.phase.id)
    && (forall n | |w.lin| <= n < |w'.lin| :: Active(v.phase) && w'.lin[n].id == v.phase.id)
  }

  // Client i alone acts: it goes to v' while the world goes from w to w', and
  // no grant of another client changes.
  predicate Isolated(views: seq<View>, i: nat, w: World, w': World)
    requires i < |views|
  {
    && GrowsFor(views[i], w, w')
    && forall j | 0 <= j < |views| && j != i :: SameGrant(views[j], w, w')
  }

  // Then every other client still satisfies its invariant.
  lemma OthersOk(views: seq<View>, i: nat, views': seq<View>, w: World, w': World)
    requires i < |views| == |views'| && views' == views[i := views'[i]]
    requires forall j | 0 <= j < |views| :: ClientOk(views[j], j, w)
    requires Isolated(views, i, w, w')
    requires ClientOk(views'[i], i, w')
    ensures forall j | 0 <= j < |views'| :: ClientOk(views'[j], j, w')
  {
    forall j | 0 <= j < |views'|
      ensures ClientOk(views'[j], j, w')
    {
      if j != i {
        assert ClientOk(views[j], j, w);
        ClientFrame(views[j], j, w, w');
      }
    }
  }

  // Client i owns the lock of k.
  predicate Owns(w: World, i: nat, h: Hold) {
    && h.key in w.db && w.db[h.key].mr.Some? && w.db[h.key].mr.value in w.regions
    && w.regions[w.db[h.key].mr.value] == Region(i, w.db[h.key].addr, w.db[h.key].size, h.access)
    && w.db[h.key].addr in w.heap
  }

  lemma HolderOwns(v: View, i: nat, w: World)
    requires ClientOk(v, i, w) && Held(v).Some?
    ensures Owns(w, i, Held(v).value)
  {
  }

  // The heaps agree except on the block client i is writing to.
  predicate SameHeapBut(v: View, w: World, w': World) {
    && w'.heap.Keys == w.heap.Keys
    && forall a | a in w.heap ::
         && |w'.heap[a]| == |w.heap[a]|
         && (w'.heap[a] == w.heap[a] ||
             (Held(v).Some? && Held(v).value.access.RemoteWrite? && Held(v).value.key in w.db
              && a == w.db[Held(v).value.key].addr))
  }

  lemma SameLocksOthers(views: seq<View>, i: nat, w: World, w': World)
    requires i < |views| && forall j | 0 <= j < |views| :: ClientOk(views[j], j, w)
    requires MemoryOk(w)
    requires w'.db == w.db && w'.regions == w.regions && SameHeapBut(views[i], w, w')
    ensures forall j | 0 <= j < |views| && j != i :: SameGrant(views[j], w, w')
  {
    forall j | 0 <= j < |views| && j != i && Held(views[j]).Some?
      ensures SameGrant(views[j], w, w')
    {
      HolderOwns(views[j], j, w);
      if Held(views[i]).Some? {
        HolderOwns(views[i], i, w);
        assert Held(views[i]).value.key != Held(views[j]).value.key;
      }
    }
  }

  lemma SameLocksData(v: View, i: nat, w: World, w': World)
    requires ClientOk(v, i, w) && MemoryOk(w) && Replay(w.lin).Some? && DataOk(w)
    requires w'.db == w.db && w'.regions == w.regions && SameHeapBut(v, w, w')
    requires Replay(w'.lin) == Replay(w.lin)
    ensures MemoryOk(w') && DataOk(w')
  {
    if Held(v).Some? {
      HolderOwns(v, i, w);
    }
    forall k | k in w'.db && !WriteLocked(w', k)
      ensures k in Replay(w'.lin).value && w'.heap[w'.db[k].addr] == Replay(w'.lin).value[k] + [0]
    {
      assert !WriteLocked(w, k);
    }
  }

  lemma SameLocksStep(views: seq<View>, i: nat, views': seq<View>, w: World, w': World)
    requires Inv(views, w) && i < |views| == |views'| && views' == views[i := views'[i]]
    requires w'.db == w.db && w'.regions == w.regions && SameHeapBut(views[i], w, w')
    requires Held(views'[i]) == Held(views[i])
    requires GrowsFor(views[i], w, w')
    requires IsLinearization(w'.ext, w'.lin) && ReturnsOnce(w'.ext)
    requires Replay(w'.lin) == Replay(w.lin)
    requires ClientOk(views'[i], i, w')
    ensures Inv(views', w')
  {
    hide ClientOk;
    SameLocksOthers(views, i, w, w');
    OthersOk(views, i, views', w, w');
    SameLocksData(views[i], i, w, w');
    assert LocksOk(views', w');
    assert RegionsOk(views', w');
  }

  // ----- client transitions ----------------------------------------------------

  lemma StartedOk(i: nat, w: World, w': World, op: Op)
    requires OnlyInvoked(w.ext, w.lin) && CoversReturns(w.ext, w.lin) && OpFits(op)
    requires w' == w.(ext := w.ext + [Invoke(i, op)])
    ensures ClientOk(View(Started(op, |w.ext|).0, ToServer(Started(op, |w.ext|).1)), i, w')
  {
    forall c | c in w.lin
      ensures c.id != |w.ext|
    {
      var n :| 0 <= n < |w.lin| && w.lin[n] == c;
    }
  }

  lemma BeginStep(views: seq<View>, i: nat, views': seq<View>, w: World, w': World, op: Op)
    requires Inv(views, w) && i < |views| && views[i].phase.Idle? && OpFits(op)
    requires views' == views[i := View(Started(op, |w.ext|).0, ToServer(Started(op, |w.ext|).1))]
    requires w' == w.(ext := w.ext + [Invoke(i, op)])
    ensures Inv(views', w')
  {
    AppendInvoke(w.ext, w.lin, i, op);
    StartedOk(i, w, w', op);
    SameLocksStep(views, i, views', w, w');
  }

  lemma QuitStep(views: seq<View>, i: nat, views': seq<View>, w: World)
    requires Inv(views, w) && i < |views| && views[i].phase.Idle?
    requires views' == views[i := View(Closed, ToServer(ShutDown))]
    ensures Inv(views', w)
  {
    SameLocksStep(views, i, views', w, w);
  }

  lemma ReturnStep(views: seq<View>, i: nat, views': seq<View>, w: World, w': World, answer: Answer)
    requires Inv(views, w) && i < |views| && Active(views[i].phase) && views[i].token.ToClient?
    requires FinalAnswer(views[i].phase, views[i].token.msg) == Some(answer)
    requires views' == views[i := View(Idle, Quiet)]
    requires w' == w.(ext := w.ext + [Return(i, views[i].phase.id, answer)])
    ensures Inv(views', w')
  {
    AppendReturn(w.ext, w.lin, i, views[i].phase.id, answer);
    SameLocksStep(views, i, views', w, w');
  }

  lemma WritingOk(v: View, v': View, i: nat, w: World)
    requires ClientOk(v, i, w) && v.phase.SetGrantWait? && v.token.ToClient? && v.token.msg.SetGrant?
    requires v' == View(SetWriting(v.phase.id, v.phase.key, v.phase.value, v.token.msg.va, v.token.msg.rkey,
                                   Range(|v.phase.value| + 1)), Quiet)
    ensures ClientOk(v', i, w)
  {
  }

  lemma GrantedSetStep(views: seq<View>, i: nat, views': seq<View>, w: World,
                       id: nat, k: CString, v: CString, va: nat, rkey: nat)
    requires Inv(views, w) && i < |views|
    requires views[i] == View(SetGrantWait(id, k, v), ToClient(SetGrant(va, rkey)))
    requires views' == views[i := View(SetWriting(id, k, v, va, rkey, Range(|v| + 1)), Quiet)]
    ensures Inv(views', w)
  {
    hide ClientOk;
    WritingOk(views[i], views'[i], i, w);
    SameLocksStep(views, i, views', w, w);
  }

  lemma ReadingOk(v: View, v': View, i: nat, w: World, junk: seq<byte>)
    requires ClientOk(v, i, w) && v.phase.GetWait? && v.token.ToClient? && v.token.msg.GetGrant?
    requires |junk| == v.token.msg.size
    requires v' == View(GetReading(v.phase.id, v.phase.key, v.token.msg.va, v.token.msg.rkey, junk,
                                   Range(|junk|)), Quiet)
    ensures ClientOk(v', i, w)
  {
  }

  lemma GrantedGetStep(views: seq<View>, i: nat, views': seq<View>, w: World,
                       id: nat, k: CString, size: nat, va: nat, rkey: nat, junk: seq<byte>)
    requires Inv(views, w) && i < |views| && |junk| == size
    requires views[i] == View(GetWait(id, k), ToClient(GetGrant(size, va, rkey)))
    requires views' == views[i := View(GetReading(id, k, va, rkey, junk, Range(size)), Quiet)]
    ensures Inv(views', w)
  {
    hide ClientOk;
    ReadingOk(views[i], views'[i], i, w, junk);
    SameLocksStep(views, i, views', w, w);
  }

  lemma ByteWrittenOk(v: View, v': View, i: nat, w: World, w': World, x: nat)
    requires ClientOk(v, i, w) && v.phase.SetWriting? && x in v.phase.todo
    ensures var p := v.phase;
            && x <= |p.value| && p.va in w.heap && |w.heap[p.va]| == |p.value| + 1
            && p.rkey in w.regions && w.regions[p.rkey] == Region(i, p.va, |p.value| + 1, RemoteWrite)
            && p.key in w.db && w.db[p.key].addr == p.va
            && (v' == View(SetWriting(p.id, p.key, p.value, p.va, p.rkey, p.todo - {x}), Quiet) ==>
                w' == w.(heap := w.heap[p.va := w.heap[p.va][x := (p.value + [0])[x]]]) ==>
                ClientOk(v', i, w'))
  {
  }

  lemma WriteByteStep(views: seq<View>, i: nat, views': seq<View>, w: World, w': World,
                      id: nat, k: CString, v: CString, va: nat, rkey: nat, todo: set<nat>, x: nat)
    requires Inv(views, w) && i < |views| && x in todo
    requires views[i].phase == SetWriting(id, k, v, va, rkey, todo)
    ensures x <= |v| && va in w.heap && |w.heap[va]| == |v| + 1
    ensures rkey in w.regions && w.regions[rkey] == Region(i, va, |v| + 1, RemoteWrite)
    ensures views' == views[i := View(SetWriting(id, k, v, va, rkey, todo - {x}), Quiet)] ==>
            w' == w.(heap := w.heap[va := w.heap[va][x := (v + [0])[x]]]) ==>
            Inv(views', w')
  {
    hide ClientOk, DistinctBlocks;
    ByteWrittenOk(views[i], View(SetWriting(id, k, v, va, rkey, todo - {x}), Quiet), i, w, w', x);
    if views' == views[i := View(SetWriting(id, k, v, va, rkey, todo - {x}), Quiet)]
       && w' == w.(heap := w.heap[va := w.heap[va][x := (v + [0])[x]]]) {
      SameLocksStep(views, i, views', w, w');
    }
  }

  lemma WrittenOk(v: View, v': View, i: nat, w: World)
    requires ClientOk(v, i, w) && v.phase.SetWriting? && v.phase.todo == {}
    requires v' == View(SetFinWait(v.phase.id, v.phase.key, v.phase.value), ToServer(SetFin(v.phase.key)))
    ensures ClientOk(v', i, w)
  {
    assert w.heap[v.phase.va] == v.phase.value + [0];
  }

  lemma SendSetFinStep(views: seq<View>, i: nat, views': seq<View>, w: World,
                       id: nat, k: CString, v: CString, va: nat, rkey: nat)
    requires Inv(views, w) && i < |views|
    requires views[i].phase == SetWriting(id, k, v, va, rkey, {})
    requires views' == views[i := View(SetFinWait(id, k, v), ToServer(SetFin(k)))]
    ensures Inv(views', w)
  {
    hide ClientOk;
    WrittenOk(views[i], views'[i], i, w);
    SameLocksStep(views, i, views', w, w);
  }

  lemma ByteReadOk(v: View, v': View, i: nat, w: World, x: nat)
    requires ClientOk(v, i, w) && v.phase.GetReading? && x in v.phase.todo
    ensures var p := v.phase;
            && x < |p.local| && p.va in w.heap && |w.heap[p.va]| == |p.local|
            && p.rkey in w.regions && w.regions[p.rkey] == Region(i, p.va, |p.local|, RemoteRead)
            && var local := p.local[x := w.heap[p.va][x]];
               v' == View(GetReading(p.id, p.key, p.va, p.rkey, local, p.todo - {x}), Quiet) ==> ClientOk(v', i, w)
  {
  }

  lemma ReadByteStep(views: seq<View>, i: nat, views': seq<View>, w: World,
                     id: nat, k: CString, va: nat, rkey: nat, local: seq<byte>, todo: set<nat>, x: nat)
    requires Inv(views, w) && i < |views| && x in todo
    requires views[i].phase == GetReading(id, k, va, rkey, local, todo) && |views'| == |views|
    ensures x < |local| && va in w.heap && |w.heap[va]| == |local|
    ensures rkey in w.regions && w.regions[rkey] == Region(i, va, |local|, RemoteRead)
    ensures views' == views[i := View(GetReading(id, k, va, rkey, local[x := w.heap[va][x]], todo - {x}), Quiet)] ==>
            Inv(views', w)
  {
    hide ClientOk;
    ByteReadOk(views[i], views'[i], i, w, x);
    if views' == views[i := View(GetReading(id, k, va, rkey, local[x := w.heap[va][x]], todo - {x}), Quiet)] {
      SameLocksStep(views, i, views', w, w);
    }
  }

  lemma ReadOk(v: View, v': View, i: nat, w: World)
    requires ClientOk(v, i, w) && v.phase.GetReading? && v.phase.todo == {}
    requires v' == View(GetFinWait(v.phase.id, v.phase.key, v.phase.local), ToServer(GetFin(v.phase.key)))
    ensures ClientOk(v', i, w)
  {
    assert v.phase.local == w.heap[v.phase.va];
  }

  lemma SendGetFinStep(views: seq<View>, i: nat, views': seq<View>, w: World,
                       id: nat, k: CString, va: nat, rkey: nat, local: seq<byte>)
    requires Inv(views, w) && i < |views|
    requires views[i].phase == GetReading(id, k, va, rkey, local, {})
    requires views' == views[i := View(GetFinWait(id, k, local), ToServer(GetFin(k)))]
    ensures Inv(views', w)
  {
    hide ClientOk;
    ReadOk(views[i], views'[i], i, w);
    SameLocksStep(views, i, views', w, w);
  }

  lemma ShutDownStep(views: seq<View>, i: nat, views': seq<View>, w: World)
    requires Inv(views, w) && i < |views| && views[i] == View(Closed, ToServer(ShutDown))
    requires views' == views[i := View(Closed, Quiet)]
    ensures Inv(views', w)
  {
    SameLocksStep(views, i, views', w, w);
  }

  // ----- server transitions ------------------------------------------------------

  // A call under way that has not taken effect may take effect now.
  lemma CommitNow(v: View, i: nat, w: World, answer: Answer)
    requires IsLinearization(w.ext, w.lin)
    requires Active(v.phase) && Open(w.ext, i, v.phase.id, OpOf(v.phase)) && Uncommitted(w.lin, v.phase.id)
    requires Effect(Replay(w.lin).value, OpOf(v.phase), answer).Some?
    ensures var c := Commit(v.phase.id, OpOf(v.phase), answer);
            && IsLinearization(w.ext, w.lin + [c]) && c in w.lin + [c]
            && Replay(w.lin + [c]) == Effect(Replay(w.lin).value, c.op, c.answer)
            && GrowsFor(v, w, w.(lin := w.lin + [c]))
  {
    var c := Commit(v.phase.id, OpOf(v.phase), answer);
    assert c.id < |w.ext| && w.ext[c.id].Invoke? && w.ext[c.id].op == c.op;
    CommitGrows(v, w, c);
    hide Open, GrowsFor, RespectsTime, CoversReturns, OnlyInvoked, NoRepeats;
    AppendCommit(w.ext, w.lin, c);
    hide IsLinearization, Uncommitted, Effect;
    ReplayAppend(w.lin, c);
  }

  lemma CommitGrows(v: View, w: World, c: Commit)
    requires Active(v.phase) && c.id == v.phase.id
    ensures GrowsFor(v, w, w.(lin := w.lin + [c])) && c in w.lin + [c]
  {
    assert (w.lin + [c])[|w.lin|] == c;
  }

  // What is known of a client whose request the server is handling.
  lemma Requesting(v: View, i: nat, w: World)
    requires ClientOk(v, i, w) && Active(v.phase) && v.token.ToServer? && Held(v).None?
    ensures var p := v.phase;
            && RequestOk(p, v.token.msg)
            && Open(w.ext, i, p.id, OpOf(p)) && OpFits(OpOf(p)) && Uncommitted(w.lin, p.id)
            && (OpOf(p).Set? ==> |p.value| + 1 < TWO_TO_32)
  {
  }

  // A committed call whose final reply is posted, with no lock held.
  lemma AnsweredOk(p: Phase, i: nat, w: World, w': World, reply: Msg, answer: Answer)
    requires Active(p) && Open(w.ext, i, p.id, OpOf(p)) && OpFits(OpOf(p))
    requires w'.ext == w.ext && Commit(p.id, OpOf(p), answer) in w'.lin
    requires FinalAnswer(p, reply) == Some(answer) && Fits(reply)
    ensures ClientOk(View(p, ToClient(reply)), i, w')
  {
  }

  // A reply that leaves the server's memory alone: busy, missing, or an eager get.
  lemma QuietReplyStep(views: seq<View>, i: nat, views': seq<View>, w: World, w': World, reply: Msg, answer: Answer)
    requires Inv(views, w) && i < |views| && Active(views[i].phase) && views[i].token.ToServer?
    requires Held(views[i]).None?
    requires FinalAnswer(views[i].phase, reply) == Some(answer) && Fits(reply)
    requires Effect(Replay(w.lin).value, OpOf(views[i].phase), answer) == Replay(w.lin)
    requires views' == views[i := View(views[i].phase, ToClient(reply))]
    requires w' == w.(lin := w.lin + [Commit(views[i].phase.id, OpOf(views[i].phase), answer)])
    ensures Inv(views', w')
  {
    Requesting(views[i], i, w);
    CommitNow(views[i], i, w, answer);
    AnsweredOk(views[i].phase, i, w, w', reply, answer);
    SameLocksStep(views, i, views', w, w');
  }

  // What the server finds in an entry that is not locked.
  lemma UnlockedEntry(w: World, k: CString)
    requires MemoryOk(w) && Replay(w.lin).Some? && DataOk(w)
    requires k in w.db && w.db[k].mr.None?
    ensures k in Replay(w.lin).value
    ensures w.db[k].addr in w.heap && CStr(w.heap[w.db[k].addr]) == Replay(w.lin).value[k]
    ensures w.db[k].size == |Replay(w.lin).value[k]| + 1
  {
    assert !WriteLocked(w, k);
    CStrOfValue(Replay(w.lin).value[k]);
  }

  // Nobody holds an unlocked key, so an update of its entry and new blocks and
  // registrations leave every grant as it was.
  lemma UnheldKey(views: seq<View>, i: nat, w: World, w': World, key: CString)
    requires i < |views| && forall j | 0 <= j < |views| :: ClientOk(views[j], j, w)
    requires key in w.db ==> w.db[key].mr.None?
    requires forall k | k in w.db && k != key :: k in w'.db && w'.db[k] == w.db[k]
    requires forall r | r in w.regions :: r in w'.regions && w'.regions[r] == w.regions[r]
    requires forall a | a in w.heap :: a in w'.heap && w'.heap[a] == w.heap[a]
    ensures forall j | 0 <= j < |views| && j != i :: SameGrant(views[j], w, w')
  {
    forall j | 0 <= j < |views| && j != i && Held(views[j]).Some?
      ensures SameGrant(views[j], w, w')
    {
      HolderOwns(views[j], j, w);
    }
  }

  lemma DistinctUpdate(db: map<CString, Entry>, key: CString, e: Entry)
    requires DistinctBlocks(db)
    requires forall l | l in db && l != key :: db[l].addr != e.addr
    ensures DistinctBlocks(db[key := e])
  {
  }

  lemma EagerSetData(w: World, w': World, key: CString, value: CString, addr: nat)
    requires MemoryOk(w) && Replay(w.lin).Some? && DataOk(w)
    requires addr !in w.heap && addr < TWO_TO_64 && |value| + 1 < TWO_TO_32
    requires w'.db == w.db[key := Entry(addr, |value| + 1, None)] && w'.heap == w.heap[addr := value + [0]]
    requires w'.regions == w.regions && Replay(w'.lin) == Some(Replay(w.lin).value[key := value])
    ensures MemoryOk(w') && DataOk(w')
  {
    DistinctUpdate(w.db, key, w'.db[key]);
    hide DistinctBlocks;
    forall k | k in w'.db && !WriteLocked(w', k)
      ensures k in Replay(w'.lin).value && w'.heap[w'.db[k].addr] == Replay(w'.lin).value[k] + [0]
    {
      if k != key {
        assert !WriteLocked(w, k);
      }
    }
  }

  // A new unlocked entry for an unlocked key leaves the locks as they were.
  lemma UnlockedLocks(views: seq<View>, i: nat, views': seq<View>, w: World, w': World, k: CString)
    requires LocksOk(views, w) && RegionsOk(views, w) && i < |views| == |views'|
    requires views' == views[i := views'[i]] && Held(views[i]).None? && Held(views'[i]).None?
    requires k in w.db ==> w.db[k].mr.None?
    requires k in w'.db && w'.db[k].mr.None? && w'.db == w.db[k := w'.db[k]] && w'.regions == w.regions
    ensures LocksOk(views', w') && RegionsOk(views', w')
  {
  }

  // Client i is answered, or granted an unlocked key, without touching the
  // grants of the others.
  lemma UnheldKeyClients(views: seq<View>, i: nat, views': seq<View>, w: World, w': World, key: CString)
    requires i < |views| == |views'| && views' == views[i := views'[i]]
    requires forall j | 0 <= j < |views| :: ClientOk(views[j], j, w)
    requires GrowsFor(views[i], w, w')
    requires key in w.db ==> w.db[key].mr.None?
    requires forall k | k in w.db && k != key :: k in w'.db && w'.db[k] == w.db[k]
    requires forall r | r in w.regions :: r in w'.regions && w'.regions[r] == w.regions[r]
    requires forall a | a in w.heap :: a in w'.heap && w'.heap[a] == w.heap[a]
    requires ClientOk(views'[i], i, w')
    ensures forall j | 0 <= j < |views'| :: ClientOk(views'[j], j, w')
  {
    UnheldKey(views, i, w, w', key);
    OthersOk(views, i, views', w, w');
  }

  lemma EagerSetStep(views: seq<View>, i: nat, views': seq<View>, w: World, w': World, addr: nat,
                     id: nat, k: CString, v: CString)
    requires Inv(views, w) && i < |views| && views[i].token.ToServer?
    requires views[i].phase == SetEagerWait(id, k, v)
    requires addr !in w.heap && addr < TWO_TO_64
    requires k in w.db ==> w.db[k].mr.None?
    requires views' == views[i := View(views[i].phase, ToClient(SetSuccessful))]
    requires w'.db == w.db[k := Entry(addr, |v| + 1, None)] && w'.heap == w.heap[addr := v + [0]]
    requires w'.regions == w.regions && w'.ext == w.ext && w'.lin == w.lin + [Commit(id, Set(k, v), Stored)]
    ensures Inv(views', w')
  {
    hide ClientOk, DistinctBlocks;
    Requesting(views[i], i, w);
    CommitNow(views[i], i, w, Stored);
    AnsweredOk(views[i].phase, i, w, w', SetSuccessful, Stored);
    UnheldKeyClients(views, i, views', w, w', k);
    EagerSetData(w, w', k, v, addr);
    UnlockedLocks(views, i, views', w, w', k);
  }

  // The locks after a grant to client i on an unlocked key.
  lemma GrantLocks(views: seq<View>, i: nat, views': seq<View>, w: World, w': World, k: CString, e: Entry, g: Region)
    requires LocksOk(views, w) && RegionsOk(views, w) && i < |views| == |views'|
    requires views' == views[i := views'[i]] && Held(views[i]).None?
    requires Held(views'[i]) == Some(Hold(k, g.access)) && g.pd == i
    requires k in w.db ==> w.db[k].mr.None?
    requires e.mr.Some? && e.mr.value !in w.regions && e.mr.value < TWO_TO_32
    requires w'.db == w.db[k := e] && w'.regions == w.regions[e.mr.value := g]
    ensures LocksOk(views', w') && RegionsOk(views', w')
  {
    forall r | r in w'.regions && r != e.mr.value
      ensures && r < TWO_TO_32 && w'.regions[r].pd < |views'| && Held(views'[w'.regions[r].pd]).Some?
              && var l := Held(views'[w'.regions[r].pd]).value.key; l in w'.db && w'.db[l].mr == Some(r)
    {
      assert r in w.regions;
    }
    forall l | l in w'.db && w'.db[l].mr.Some? && l != k
      ensures && w'.db[l].mr.value in w'.regions
              && var h := w'.regions[w'.db[l].mr.value];
                 h.pd < |views'| && Held(views'[h.pd]) == Some(Hold(l, h.access))
    {
      assert l in w.db && w.db[l].mr.Some?;
    }
  }

  lemma GrantSetData(w: World, w': World, key: CString, e: Entry, g: Region)
    requires MemoryOk(w) && Replay(w.lin).Some? && DataOk(w)
    requires e.addr !in w.heap && e.addr < TWO_TO_64 && e.size < TWO_TO_32
    requires e.mr.Some? && e.mr.value !in w.regions && g.access.RemoteWrite?
    requires w'.db == w.db[key := e] && w'.regions == w.regions[e.mr.value := g] && w'.lin == w.lin
    requires e.addr in w'.heap && |w'.heap[e.addr]| == e.size && w'.heap == w.heap[e.addr := w'.heap[e.addr]]
    ensures MemoryOk(w') && DataOk(w')
  {
    DistinctUpdate(w.db, key, e);
    hide DistinctBlocks;
    forall k | k in w'.db && !WriteLocked(w', k)
      ensures k in Replay(w'.lin).value && w'.heap[w'.db[k].addr] == Replay(w'.lin).value[k] + [0]
    {
      assert k != key;
      assert !WriteLocked(w, k);
    }
  }

  lemma GrantedSetOk(p: Phase, i: nat, w: World, w': World, va: nat, rkey: nat)
    requires p.SetGrantWait? && Open(w.ext, i, p.id, OpOf(p)) && OpFits(OpOf(p)) && w'.ext == w.ext
    requires Granted(w', i, p.key, va, rkey, |p.value| + 1, RemoteWrite) && Uncommitted(w'.lin, p.id)
    ensures ClientOk(View(p, ToClient(SetGrant(va, rkey))), i, w')
  {
  }

  lemma GrantSetServer(views: seq<View>, i: nat, views': seq<View>, w: World, w': World,
                       k: CString, e: Entry, g: Region)
    requires LocksOk(views, w) && RegionsOk(views, w) && i < |views| == |views'|
    requires views' == views[i := views'[i]] && Held(views[i]).None?
    requires Held(views'[i]) == Some(Hold(k, g.access)) && g.pd == i
    requires MemoryOk(w) && Replay(w.lin).Some? && DataOk(w)
    requires e.mr.Some? && e.mr.value !in w.regions && e.mr.value < TWO_TO_32
    requires w'.db == w.db[k := e] && w'.regions == w.regions[e.mr.value := g]
    requires k in w.db ==> w.db[k].mr.None?
    requires e.addr !in w.heap && e.addr < TWO_TO_64 && e.size < TWO_TO_32 && g.access.RemoteWrite?
    requires e.addr in w'.heap && |w'.heap[e.addr]| == e.size && w'.heap == w.heap[e.addr := w'.heap[e.addr]]
    requires w'.lin == w.lin
    ensures LocksOk(views', w') && RegionsOk(views', w') && MemoryOk(w') && DataOk(w')
  {
    GrantLocks(views, i, views', w, w', k, e, g);
    GrantSetData(w, w', k, e, g);
  }

  lemma GrantSetStep(views: seq<View>, i: nat, views': seq<View>, w: World, w': World,
                     addr: nat, rkey: nat, junk: seq<byte>, id: nat, k: CString, v: CString)
    requires Inv(views, w) && i < |views| && views[i].token.ToServer?
    requires views[i].phase == SetGrantWait(id, k, v)
    requires addr !in w.heap && addr < TWO_TO_64 && rkey !in w.regions && rkey < TWO_TO_32
    requires |junk| == |v| + 1
    requires k in w.db ==> w.db[k].mr.None?
    requires views' == views[i := View(views[i].phase, ToClient(SetGrant(addr, rkey)))]
    requires w'.db == w.db[k := Entry(addr, |v| + 1, Some(rkey))] && w'.heap == w.heap[addr := junk]
    requires w'.regions == w.regions[rkey := Region(i, addr, |v| + 1, RemoteWrite)]
    requires w'.ext == w.ext && w'.lin == w.lin
    ensures Inv(views', w')
  {
    hide ClientOk, DistinctBlocks, OpFits, Open, Uncommitted, ReturnsOnce, DataOk, LocksOk, RegionsOk;
    Requesting(views[i], i, w);
    GrantedSetOk(views[i].phase, i, w, w', addr, rkey);
    UnheldKeyClients(views, i, views', w, w', k);
    GrantSetServer(views, i, views', w, w', k, w'.db[k], w'.regions[rkey]);
  }

  lemma GrantGetData(w: World, w': World, key: CString, e: Entry, g: Region)
    requires MemoryOk(w) && Replay(w.lin).Some? && DataOk(w)
    requires key in w.db && w.db[key].mr.None? && w.db[key].addr == e.addr && w.db[key].size == e.size
    requires e.mr.Some? && e.mr.value !in w.regions && g.access.RemoteRead?
    requires w'.db == w.db[key := e] && w'.regions == w.regions[e.mr.value := g]
    requires w'.heap == w.heap && Replay(w'.lin) == Replay(w.lin)
    ensures MemoryOk(w') && DataOk(w')
  {
    hide Replay;
    assert MemoryOk(w') by {
      assert forall l | l in w.db && l != key :: w.db[l].addr != w.db[key].addr;
      DistinctUpdate(w.db, key, e);
      hide DistinctBlocks, DataOk;
    }
    hide MemoryOk;
    forall k | k in w'.db && !WriteLocked(w', k)
      ensures k in Replay(w'.lin).value && w'.db[k].addr in w'.heap
      ensures w'.heap[w'.db[k].addr] == Replay(w'.lin).value[k] + [0]
    {
      assert k in w.db && w'.db[k].addr == w.db[k].addr;
      assert !WriteLocked(w, k);
    }
  }

  lemma GrantedGetOk(p: Phase, i: nat, w: World, w': World, size: nat, va: nat, rkey: nat)
    requires p.GetWait? && Open(w.ext, i, p.id, OpOf(p)) && OpFits(OpOf(p)) && w'.ext == w.ext
    requires Granted(w', i, p.key, va, rkey, size, RemoteRead)
    requires Commit(p.id, OpOf(p), Found(CStr(w'.heap[va]))) in w'.lin
    ensures ClientOk(View(p, ToClient(GetGrant(size, va, rkey))), i, w')
  {
  }

  lemma GrantGetServer(views: seq<View>, i: nat, views': seq<View>, w: World, w': World,
                       k: CString, e: Entry, g: Region)
    requires LocksOk(views, w) && RegionsOk(views, w) && i < |views| == |views'|
    requires views' == views[i := views'[i]] && Held(views[i]).None?
    requires Held(views'[i]) == Some(Hold(k, g.access)) && g.pd == i
    requires MemoryOk(w) && Replay(w.lin).Some? && DataOk(w)
    requires e.mr.Some? && e.mr.value !in w.regions && e.mr.value < TWO_TO_32
    requires w'.db == w.db[k := e] && w'.regions == w.regions[e.mr.value := g]
    requires k in w.db && w.db[k].mr.None? && w.db[k].addr == e.addr && w.db[k].size == e.size
    requires g.access.RemoteRead? && w'.heap == w.heap && Replay(w'.lin) == Replay(w.lin)
    ensures LocksOk(views', w') && RegionsOk(views', w') && MemoryOk(w') && DataOk(w')
  {
    GrantLocks(views, i, views', w, w', k, e, g);
    GrantGetData(w, w', k, e, g);
  }

  lemma GrantGetCommit(v: View, i: nat, w: World, w': World, rkey: nat, id: nat, k: CString, e: Entry)
    requires ClientOk(v, i, w) && v.token.ToServer? && v.phase == GetWait(id, k)
    requires MemoryOk(w) && IsLinearization(w.ext, w.lin) && DataOk(w)
    requires k in w.db && w.db[k] == e && e.mr.None? && e.addr in w.heap
    requires k in w'.db && w'.db[k] == e.(mr := Some(rkey)) && w'.heap == w.heap
    requires rkey in w'.regions && w'.regions[rkey] == Region(i, e.addr, e.size, RemoteRead)
    requires w'.ext == w.ext && w'.lin == w.lin + [Commit(id, Get(k), Found(CStr(w.heap[e.addr])))]
    ensures ClientOk(View(v.phase, ToClient(GetGrant(e.size, e.addr, rkey))), i, w')
    ensures GrowsFor(v, w, w') && IsLinearization(w'.ext, w'.lin) && Replay(w'.lin) == Replay(w.lin)
  {
    hide DistinctBlocks;
    Requesting(v, i, w);
    UnlockedEntry(w, k);
    CommitNow(v, i, w, Found(CStr(w.heap[e.addr])));
    GrantedGetOk(v.phase, i, w, w', e.size, e.addr, rkey);
  }

  lemma GrantGetStep(views: seq<View>, i: nat, views': seq<View>, w: World, w': World,
                     rkey: nat, id: nat, k: CString, e: Entry)
    requires Inv(views, w) && i < |views| && views[i].token.ToServer?
    requires views[i].phase == GetWait(id, k)
    requires rkey !in w.regions && rkey < TWO_TO_32
    requires k in w.db && w.db[k] == e && e.mr.None? && e.addr in w.heap
    requires views' == views[i := View(views[i].phase, ToClient(GetGrant(e.size, e.addr, rkey)))]
    requires w'.db == w.db[k := e.(mr := Some(rkey))] && w'.heap == w.heap
    requires w'.regions == w.regions[rkey := Region(i, e.addr, e.size, RemoteRead)]
    requires w'.ext == w.ext && w'.lin == w.lin + [Commit(id, Get(k), Found(CStr(w.heap[e.addr])))]
    ensures Inv(views', w')
  {
    hide ClientOk, DistinctBlocks;
    GrantGetCommit(views[i], i, w, w', rkey, id, k, e);
    UnheldKeyClients(views, i, views', w, w', k);
    GrantGetServer(views, i, views', w, w', k, w'.db[k], w'.regions[rkey]);
  }

  // Releasing the lock that client i holds on k.
  function Released(w: World, k: CString): World
    requires k in w.db && w.db[k].mr.Some?
  {
    w.(db := w.db[k := w.db[k].(mr := None)], regions := w.regions - {w.db[k].mr.value})
  }

  lemma ReleasedOthers(views: seq<View>, i: nat, w: World, w': World, k: CString)
    requires i < |views| && forall j | 0 <= j < |views| :: ClientOk(views[j], j, w)
    requires Held(views[i]).Some? && Held(views[i]).value.key == k
    requires k in w.db && w.db[k].mr.Some?
    requires w'.db == Released(w, k).db && w'.regions == Released(w, k).regions && w'.heap == w.heap
    ensures forall j | 0 <= j < |views| && j != i :: SameGrant(views[j], w, w')
  {
    HolderOwns(views[i], i, w);
    forall j | 0 <= j < |views| && j != i && Held(views[j]).Some?
      ensures SameGrant(views[j], w, w')
    {
      HolderOwns(views[j], j, w);
      assert Held(views[j]).value.key != k;
    }
  }

  lemma ReleasedLocks(views: seq<View>, i: nat, views': seq<View>, w: World, w': World, k: CString)
    requires LocksOk(views, w) && RegionsOk(views, w) && i < |views| == |views'|
    requires views' == views[i := views'[i]] && Held(views'[i]).None?
    requires Held(views[i]).Some? && Owns(w, i, Held(views[i]).value) && Held(views[i]).value.key == k
    requires w'.db == Released(w, k).db && w'.regions == Released(w, k).regions
    ensures LocksOk(views', w') && RegionsOk(views', w')
  {
    forall l | l in w'.db && w'.db[l].mr.Some?
      ensures && w'.db[l].mr.value in w'.regions
              && var g := w'.regions[w'.db[l].mr.value];
                 g.pd < |views'| && Held(views'[g.pd]) == Some(Hold(l, g.access))
    {
      assert l != k && w.db[l].mr.Some?;
    }
    forall r | r in w'.regions
      ensures && r < TWO_TO_32 && w'.regions[r].pd < |views'| && Held(views'[w'.regions[r].pd]).Some?
              && var l := Held(views'[w'.regions[r].pd]).value.key; l in w'.db && w'.db[l].mr == Some(r)
    {
      assert r in w.regions && w.db[k].mr != Some(r);
      assert w.regions[r].pd != i;
    }
  }

  lemma ReleasedData(w: World, w': World, k: CString)
    requires MemoryOk(w) && Replay(w.lin).Some? && DataOk(w) && Replay(w'.lin).Some?
    requires k in w.db && w.db[k].mr.Some? && w.db[k].mr.value in w.regions
    requires w'.db == Released(w, k).db && w'.regions == Released(w, k).regions && w'.heap == w.heap
    requires forall l, m | l in w.db && m in w.db && l != m && w.db[l].mr.Some? :: w.db[l].mr != w.db[m].mr
    requires forall l | l != k :: l in Replay(w.lin).value <==> l in Replay(w'.lin).value
    requires forall l | l != k && l in Replay(w.lin).value :: Replay(w'.lin).value[l] == Replay(w.lin).value[l]
    requires k in Replay(w'.lin).value && w.heap[w.db[k].addr] == Replay(w'.lin).value[k] + [0]
    ensures MemoryOk(w') && DataOk(w')
  {
    assert forall l | l in w.db && l != k :: w.db[l].addr != w.db[k].addr;
    DistinctUpdate(w.db, k, w'.db[k]);
    hide DistinctBlocks;
    forall l | l in w'.db && !WriteLocked(w', l)
      ensures l in Replay(w'.lin).value && w'.heap[w'.db[l].addr] == Replay(w'.lin).value[l] + [0]
    {
      if l != k {
        assert !WriteLocked(w, l);
      }
    }
  }

  lemma LocksDistinct(views: seq<View>, w: World)
    requires LocksOk(views, w)
    ensures forall l, m | l in w.db && m in w.db && l != m && w.db[l].mr.Some? :: w.db[l].mr != w.db[m].mr
  {
  }

  lemma ReleaseClients(views: seq<View>, i: nat, views': seq<View>, w: World, w': World, k: CString)
    requires i < |views| == |views'| && views' == views[i := views'[i]]
    requires forall j | 0 <= j < |views| :: ClientOk(views[j], j, w)
    requires Held(views[i]).Some? && Held(views[i]).value.key == k && k in w.db && w.db[k].mr.Some?
    requires w'.db == Released(w, k).db && w'.regions == Released(w, k).regions && w'.heap == w.heap
    requires GrowsFor(views[i], w, w') && ClientOk(views'[i], i, w')
    ensures forall j | 0 <= j < |views'| :: ClientOk(views'[j], j, w')
  {
    ReleasedOthers(views, i, w, w', k);
    OthersOk(views, i, views', w, w');
  }

  lemma ReleaseServer(views: seq<View>, i: nat, views': seq<View>, w: World, w': World, k: CString)
    requires LocksOk(views, w) && RegionsOk(views, w) && i < |views| == |views'|
    requires views' == views[i := views'[i]] && Held(views'[i]).None?
    requires Held(views[i]).Some? && Held(views[i]).value.key == k && Owns(w, i, Held(views[i]).value)
    requires MemoryOk(w) && Replay(w.lin).Some? && DataOk(w) && Replay(w'.lin).Some?
    requires w'.db == Released(w, k).db && w'.regions == Released(w, k).regions && w'.heap == w.heap
    requires forall l | l != k :: l in Replay(w.lin).value <==> l in Replay(w'.lin).value
    requires forall l | l != k && l in Replay(w.lin).value :: Replay(w'.lin).value[l] == Replay(w.lin).value[l]
    requires k in Replay(w'.lin).value && w.heap[w.db[k].addr] == Replay(w'.lin).value[k] + [0]
    ensures LocksOk(views', w') && RegionsOk(views', w') && MemoryOk(w') && DataOk(w')
  {
    ReleasedLocks(views, i, views', w, w', k);
    LocksDistinct(views, w);
    ReleasedData(w, w', k);
  }

  lemma SetFinStep(views: seq<View>, i: nat, views': seq<View>, w: World, w': World, id: nat, k: CString, v: CString)
    requires Inv(views, w) && i < |views| && views[i].token.ToServer?
    requires views[i].phase == SetFinWait(id, k, v)
    requires views' == views[i := View(views[i].phase, ToClient(SetSuccessful))]
    requires Owns(w, i, Hold(k, RemoteWrite))
    requires w'.db == Released(w, k).db && w'.regions == Released(w, k).regions && w'.heap == w.heap
    requires w'.ext == w.ext && w'.lin == w.lin + [Commit(id, Set(k, v), Stored)]
    ensures Inv(views', w')
  {
    hide DistinctBlocks;
    WrittenValue(views[i], i, w);
    CommitNow(views[i], i, w, Stored);
    AnsweredOk(views[i].phase, i, w, w', SetSuccessful, Stored);
    ReleaseClients(views, i, views', w, w', k);
    ReleaseServer(views, i, views', w, w', k);
  }

  lemma WrittenValue(v: View, i: nat, w: World)
    requires ClientOk(v, i, w) && v.phase.SetFinWait? && v.token.ToServer?
    ensures Open(w.ext, i, v.phase.id, OpOf(v.phase)) && OpFits(OpOf(v.phase)) && Uncommitted(w.lin, v.phase.id)
    ensures v.phase.key in w.db && w.db[v.phase.key].addr in w.heap
    ensures w.heap[w.db[v.phase.key].addr] == v.phase.value + [0]
  {
  }

  lemma GetFinStep(views: seq<View>, i: nat, views': seq<View>, w: World, w': World,
                   id: nat, k: CString, local: seq<byte>)
    requires Inv(views, w) && i < |views| && views[i].token.ToServer?
    requires views[i].phase == GetFinWait(id, k, local)
    requires views' == views[i := View(views[i].phase, ToClient(GetSuccessful))]
    requires Owns(w, i, Hold(k, RemoteRead))
    requires w'.db == Released(w, k).db && w'.regions == Released(w, k).regions && w'.heap == w.heap
    requires w'.ext == w.ext && w'.lin == w.lin
    ensures Inv(views', w')
  {
    FetchedOk(views[i], views'[i], i, w, w');
    assert !WriteLocked(w, k);
    ReleaseClients(views, i, views', w, w', k);
    ReleaseServer(views, i, views', w, w', k);
  }

  lemma FetchedOk(v: View, v': View, i: nat, w: World, w': World)
    requires ClientOk(v, i, w) && v.phase.GetFinWait? && v.token.ToServer?
    requires v' == View(v.phase, ToClient(GetSuccessful)) && w'.ext == w.ext && w'.lin == w.lin
    ensures ClientOk(v', i, w')
  {
  }
}
