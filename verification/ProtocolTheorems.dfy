// What holds in every reachable state of the key-value protocol, for any
// number of clients, any scripts and any interleaving.
module ProtocolTheorems {
  import opened Messages
  import opened History
  import opened ServerStore
  import opened Protocol
  import opened ProtocolInvariant
  import opened ProtocolSteps
  import opened ProtocolRuns

  // ----- linearizability ---------------------------------------------------------

  // The calls of all clients, as the clients see them, are linearizable; the
  // witness is the order in which the server's handlers made them take effect.
  lemma ReachableLinearizable(s: State)
    requires Reachable(s)
    ensures IsLinearization(s.ext, s.lin) && ReturnsOnce(s.ext)
    ensures Linearizable(s.ext)
  {
    ReachableInv(s);
  }

  // A get that returned v took effect when v was the value of the latest
  // successful set of its key; one that found nothing, when there was none.
  lemma ReturnedGetIsLatest(s: State, n: nat)
    requires Reachable(s) && n < |s.ext| && s.ext[n].Return?
    requires s.ext[n].answer.Found? || s.ext[n].answer.Missing?
    ensures s.ext[n].id < n && s.ext[s.ext[n].id].Invoke? && s.ext[s.ext[n].id].op.Get?
    ensures exists a :: 0 <= a < |s.lin| && s.lin[a] == Commit(s.ext[n].id, s.ext[s.ext[n].id].op, s.ext[n].answer)
                     && LastStored(s.lin[..a], s.lin[a].op.key)
                        == (if s.ext[n].answer.Found? then Some(s.ext[n].answer.value) else None)
  {
    ReachableLinearizable(s);
    var c := Commit(s.ext[n].id, s.ext[s.ext[n].id].op, s.ext[n].answer);
    assert c in s.lin;
    var a :| 0 <= a < |s.lin| && s.lin[a] == c;
    LegalAnswer(s.lin, a);
    GetsSeeLatestSet(s.lin, a);
  }

  lemma LegalAnswer(lin: seq<Commit>, n: nat)
    requires Replay(lin).Some? && n < |lin|
    ensures lin[n].op.Set? ==> lin[n].answer.Stored? || lin[n].answer.Busy?
    ensures lin[n].op.Get? ==> !lin[n].answer.Stored?
  {
    PrefixLegal(lin, n + 1);
    assert lin[..n + 1][..n] == lin[..n];
  }

  // The server's reaction to the message it is handling.
  function ReactionOf(s: State, f: Fresh): Reaction
    requires Enabled(s, Handle(f))
  {
    Respond(s.store, s.pc.client, s.clients[s.pc.client].up.buf, f)
  }

  // The path of a get depends on the length of the stored value alone: eager
  // below the buffer size, rendezvous from there on. So a value that was short
  // enough to be set eagerly is always fetched eagerly.
  lemma GetPathByLength(s: State, f: Fresh)
    requires Reachable(s) && Enabled(s, Handle(f)) && s.clients[s.pc.client].up.buf.GetKey?
    requires var k := s.clients[s.pc.client].up.buf.key; k in s.store.db && !Locked(s.store, k)
    ensures var k := s.clients[s.pc.client].up.buf.key;
            && LastStored(s.lin, k).Some?
            && var v := LastStored(s.lin, k).value;
               && ReactionOf(s, f).React?
               && (|v| + 1 < BUFFER_SIZE ==> ReactionOf(s, f).reply == GetEager(v))
               && (|v| + 1 >= BUFFER_SIZE ==>
                     ReactionOf(s, f).reply == GetGrant(|v| + 1, s.store.db[k].addr, f.rkey))
               && (forall key | EagerGuard(key, v) :: ReactionOf(s, f).reply == GetEager(v))
  {
    hide StateInv, Reachable;
    ReachableInv(s);
    var k := s.clients[s.pc.client].up.buf.key;
    StoredValue(s, k);
    ReplayIsLastStored(s.lin, k);
  }

  lemma RespondBusy(st: Store, i: nat, m: Msg, f: Fresh)
    requires Respond(st, i, m, f).React? && Respond(st, i, m, f).reply.InProgress?
    ensures Respond(st, i, m, f) == React(st, InProgress, None)
    ensures (m.SetEager? || m.SetRendezvous? || m.GetKey?) && Locked(st, m.key)
  {
  }

  // The owner of a lock the server sees.
  lemma LockHolder(s: State, k: CString)
    requires StateInv(s) && k in VisibleDb(s) && VisibleDb(s)[k].mr.Some?
    ensures VisibleDb(s)[k].mr.value in s.store.regions
    ensures var j := s.store.regions[VisibleDb(s)[k].mr.value].pd;
            j < |s.clients| && Held(ViewOf(s, j)).Some? && Held(ViewOf(s, j)).value.key == k
  {
    assert LocksOk(Views(s), WorldOf(s));
    var j := s.store.regions[VisibleDb(s)[k].mr.value].pd;
    assert Views(s)[j] == ViewOf(s, j);
  }

  lemma BusyApplied(s: State, f: Fresh)
    requires Enabled(s, Handle(f)) && ReactionOf(s, f).React? && ReactionOf(s, f).reply.InProgress?
    ensures Apply(s, Handle(f)).store == s.store && Apply(s, Handle(f)).pc.Polling?
    ensures var m := s.clients[s.pc.client].up.buf;
            (m.SetEager? || m.SetRendezvous? || m.GetKey?) && Locked(s.store, m.key)
  {
    RespondBusy(s.store, s.pc.client, s.clients[s.pc.client].up.buf, f);
    hide Respond;
  }

  // A busy reply changes nothing at the server, and is given only when another
  // client is in the middle of a rendezvous on the same key.
  lemma BusyIsHonest(s: State, f: Fresh)
    requires Reachable(s) && Enabled(s, Handle(f))
    requires ReactionOf(s, f).React? && ReactionOf(s, f).reply.InProgress?
    ensures Apply(s, Handle(f)).store == s.store && Apply(s, Handle(f)).pc.Polling?
    ensures Active(s.clients[s.pc.client].phase)
    ensures exists j :: 0 <= j < |s.clients| && j != s.pc.client
                     && Held(ViewOf(s, j)).Some? && Held(ViewOf(s, j)).value.key == s.clients[s.pc.client].phase.key
  {
    hide StateInv, Apply, Reachable, ReactionOf;
    ReachableInv(s);
    RequestKnown(s);
    BusyApplied(s, f);
    LockHolder(s, s.clients[s.pc.client].up.buf.key);
  }

  // ----- lock ownership ------------------------------------------------------------

  // Client i is in the middle of a rendezvous on k: a grant is on its way to
  // it, or it is transferring, or its FIN has not been handled.
  predicate MidRendezvous(s: State, i: nat, k: CString)
    requires i < |s.clients|
  {
    Held(ViewOf(s, i)).Some? && Held(ViewOf(s, i)).value.key == k
  }

  // The entry of k has a registration, or the server is between posting a grant
  // for k and recording it.
  predicate InUse(s: State, k: CString) {
    Locked(s.store, k) || (s.pc.Granting? && s.pc.pending.key == k)
  }

  lemma PendingIsLock(s: State)
    requires Reachable(s) && s.pc.Granting?
    ensures s.pc.pending.entry.mr.Some? && !Locked(s.store, s.pc.pending.key)
  {
    var s0, steps :| Init(s0) && ValidRun(s0, steps) && Execute(s0, steps) == s;
    PendingIsLockRun(s0, steps);
  }

  predicate PendingOk(s: State) {
    s.pc.Granting? ==> s.pc.pending.entry.mr.Some? && !Locked(s.store, s.pc.pending.key)
  }

  lemma {:induction false} PendingIsLockRun(s0: State, steps: seq<Step>)
    requires Init(s0) && ValidRun(s0, steps)
    ensures PendingOk(Execute(s0, steps))
    decreases |steps|
  {
    if steps != [] {
      var before := steps[..|steps| - 1];
      PendingIsLockRun(s0, before);
      PendingStep(Execute(s0, before), steps[|steps| - 1]);
    }
  }

  lemma PendingStep(s: State, step: Step)
    requires PendingOk(s) && Enabled(s, step)
    ensures PendingOk(Apply(s, step))
  {
  }

  // A key is in use exactly when some client is mid-rendezvous on it, and then
  // exactly one is.
  lemma LockOwnership(s: State, k: CString)
    requires Reachable(s)
    ensures InUse(s, k) <==> exists i :: 0 <= i < |s.clients| && MidRendezvous(s, i, k)
    ensures forall i, j | 0 <= i < |s.clients| && 0 <= j < |s.clients|
                          && MidRendezvous(s, i, k) && MidRendezvous(s, j, k) :: i == j
  {
    ReachableInv(s);
    if s.pc.Granting? {
      PendingIsLock(s);
    }
    forall i | 0 <= i < |s.clients| && MidRendezvous(s, i, k)
      ensures Owns(WorldOf(s), i, Held(ViewOf(s, i)).value) && InUse(s, k)
    {
      HolderOwns(Views(s)[i], i, WorldOf(s));
    }
    if InUse(s, k) {
      var w := WorldOf(s);
      assert k in w.db && w.db[k].mr.Some?;
      var i := w.regions[w.db[k].mr.value].pd;
      assert Held(Views(s)[i]) == Held(ViewOf(s, i));
      assert MidRendezvous(s, i, k);
    }
  }

  // No two blocks of the heap overlap.
  predicate HeapApart(heap: map<nat, seq<byte>>) {
    forall a, b | a in heap && b in heap && a != b :: Apart(a, |heap[a]|, b, |heap[b]|)
  }

  lemma RespondApart(st: Store, i: nat, m: Msg, f: Fresh)
    requires HeapApart(st.heap) && FreshFor(st, m, f) && Respond(st, i, m, f).React?
    ensures HeapApart(Respond(st, i, m, f).store.heap)
  {
  }

  lemma ApartStep(s: State, step: Step)
    requires HeapApart(s.store.heap) && Enabled(s, step)
    ensures HeapApart(Apply(s, step).store.heap)
  {
    if step.Handle? {
      var m := s.clients[s.pc.client].up.buf;
      if Respond(s.store, s.pc.client, m, step.f).React? {
        RespondApart(s.store, s.pc.client, m, step.f);
      }
      hide Respond, HeapApart;
    }
  }

  lemma {:induction false} BlocksApart(s0: State, steps: seq<Step>)
    requires Init(s0) && ValidRun(s0, steps)
    ensures HeapApart(Execute(s0, steps).store.heap)
    decreases |steps|
  {
    if steps != [] {
      var before := steps[..|steps| - 1];
      BlocksApart(s0, before);
      hide HeapApart, Apply, Enabled;
      ApartStep(Execute(s0, before), steps[|steps| - 1]);
    }
  }

  // The memory that a one-sided transfer covers.
  function Extent(p: Phase): nat
    requires p.SetWriting? || p.GetReading?
  {
    if p.SetWriting? then |p.value| + 1 else |p.local|
  }

  // Two clients never transfer to or from overlapping memory at the same time.
  lemma TransfersDisjoint(s: State, i: nat, j: nat)
    requires Reachable(s) && i < |s.clients| && j < |s.clients| && i != j
    requires s.clients[i].phase.SetWriting? || s.clients[i].phase.GetReading?
    requires s.clients[j].phase.SetWriting? || s.clients[j].phase.GetReading?
    ensures var p, q := s.clients[i].phase, s.clients[j].phase;
            p.key != q.key && p.va != q.va && Apart(p.va, Extent(p), q.va, Extent(q))
  {
    var s0, steps :| Init(s0) && ValidRun(s0, steps) && Execute(s0, steps) == s;
    BlocksApart(s0, steps);
    KeysDiffer(s, i, j);
    HeldAt(s, i);
    HeldAt(s, j);
    hide StateInv;
  }

  lemma KeysDiffer(s: State, i: nat, j: nat)
    requires Reachable(s) && i < |s.clients| && j < |s.clients| && i != j
    requires s.clients[i].phase.SetWriting? || s.clients[i].phase.GetReading?
    requires s.clients[j].phase.SetWriting? || s.clients[j].phase.GetReading?
    ensures StateInv(s) && s.clients[i].phase.key != s.clients[j].phase.key
    ensures s.clients[i].phase.va != s.clients[j].phase.va
  {
    ReachableInv(s);
    HeldAt(s, i);
    HeldAt(s, j);
  }

  // A client that is transferring works on the entry it holds.
  lemma HeldAt(s: State, i: nat)
    requires StateInv(s) && i < |s.clients|
    requires s.clients[i].phase.SetWriting? || s.clients[i].phase.GetReading?
    ensures var p := s.clients[i].phase;
            && p.key in VisibleDb(s) && VisibleDb(s)[p.key].addr == p.va
            && VisibleDb(s)[p.key].mr == Some(p.rkey)
            && ValidAccess(s.store, i, p.va, p.rkey, Extent(p),
                           if p.SetWriting? then RemoteWrite else RemoteRead)
  {
    assert ClientOk(Views(s)[i], i, WorldOf(s));
  }

  // ----- one-sided access -------------------------------------------------------------

  // Every byte moved by a one-sided transfer is inside a live registration of
  // the client's own connection that permits it and has exactly the length of
  // the transfer.
  lemma OneSidedAccessValid(s: State, i: nat, x: nat)
    requires Reachable(s)
    ensures Enabled(s, WriteByte(i, x)) ==>
              var p := s.clients[i].phase;
              && x < TransferLength(|p.value| + 1) == |p.value| + 1
              && p.rkey in s.store.regions && s.store.regions[p.rkey] == Region(i, p.va, |p.value| + 1, RemoteWrite)
              && p.va in s.store.heap && |s.store.heap[p.va]| == |p.value| + 1
    ensures Enabled(s, ReadByte(i, x)) ==>
              var p := s.clients[i].phase;
              && x < TransferLength(|p.local|) == |p.local|
              && p.rkey in s.store.regions && s.store.regions[p.rkey] == Region(i, p.va, |p.local|, RemoteRead)
              && p.va in s.store.heap && |s.store.heap[p.va]| == |p.local|
  {
    hide StateInv, Reachable;
    ReachableInv(s);
    if Enabled(s, WriteByte(i, x)) || Enabled(s, ReadByte(i, x)) {
      HeldAt(s, i);
      OffsetsInBlock(s, i);
      TransfersWhole(s, i);
    }
  }

  // Every transfer is short enough to be moved whole.
  lemma TransfersWhole(s: State, i: nat)
    requires StateInv(s) && i < |s.clients|
    ensures var p := s.clients[i].phase;
            p.SetWriting? || p.GetReading? ==> TransferLength(Extent(p)) == Extent(p)
  {
    var p := s.clients[i].phase;
    assert ClientOk(Views(s)[i], i, WorldOf(s));
    if p.GetReading? {
      HeldAt(s, i);
      assert MemoryOk(WorldOf(s));
    }
    hide Inv, ClientOk, MemoryOk;
  }

  lemma OffsetsInBlock(s: State, i: nat)
    requires StateInv(s) && i < |s.clients|
    ensures s.clients[i].phase.SetWriting? ==>
              forall x | x in s.clients[i].phase.todo :: x < |s.clients[i].phase.value| + 1
    ensures s.clients[i].phase.GetReading? ==>
              forall x | x in s.clients[i].phase.todo :: x < |s.clients[i].phase.local|
  {
    assert ClientOk(Views(s)[i], i, WorldOf(s));
  }

  // Registrations and locks match one to one, counting a grant in its window.
  lemma RegistrationsAreLocks(s: State)
    requires Reachable(s)
    ensures forall r | r in s.store.regions ::
              exists k :: k in VisibleDb(s) && VisibleDb(s)[k].mr == Some(r)
                       && VisibleDb(s)[k].addr == s.store.regions[r].addr
                       && VisibleDb(s)[k].size == s.store.regions[r].size
    ensures forall k | k in VisibleDb(s) && VisibleDb(s)[k].mr.Some? :: VisibleDb(s)[k].mr.value in s.store.regions
    ensures forall k, l | k in VisibleDb(s) && l in VisibleDb(s) && VisibleDb(s)[k].mr.Some?
                          && VisibleDb(s)[k].mr == VisibleDb(s)[l].mr :: k == l
  {
    ReachableInv(s);
    LocksDistinct(Views(s), WorldOf(s));
    forall r | r in s.store.regions
      ensures exists k :: k in VisibleDb(s) && VisibleDb(s)[k].mr == Some(r)
                       && VisibleDb(s)[k].addr == s.store.regions[r].addr
                       && VisibleDb(s)[k].size == s.store.regions[r].size
    {
      var i := s.store.regions[r].pd;
      HolderOwns(Views(s)[i], i, WorldOf(s));
    }
  }

  lemma RespondKeepsLocked(st: Store, i: nat, m: Msg, f: Fresh, k: CString)
    requires Locked(st, k) && Respond(st, i, m, f).React?
    requires k !in Respond(st, i, m, f).store.db || Respond(st, i, m, f).store.db[k] != st.db[k]
    ensures (m.SetFin? || m.GetFin?) && m.key == k
  {
  }

  // A step leaves the entry of key k as it is.
  predicate Keeps(s: State, step: Step, k: CString)
    requires Enabled(s, step) && k in s.store.db
  {
    k in Apply(s, step).store.db && Apply(s, step).store.db[k] == s.store.db[k]
  }

  // The entry of a locked key changes only when its owner's FIN is handled.
  lemma LockedEntryStable(s: State, step: Step, k: CString)
    requires Reachable(s) && Enabled(s, step) && Locked(s.store, k)
    ensures || Keeps(s, step, k)
            || (&& step.Handle? && MidRendezvous(s, s.pc.client, k)
                && (s.clients[s.pc.client].phase.SetFinWait? || s.clients[s.pc.client].phase.GetFinWait?))
  {
    hide StateInv, Reachable, Apply, Keeps;
    if !Keeps(s, step, k) {
      if step.Finish? {
        PendingIsLock(s);
      }
      EntryChange(s, step, k);
      ReachableInv(s);
      FinHolder(s);
    }
  }

  // Whoever sent the FIN being handled is mid-rendezvous on its key.
  lemma FinHolder(s: State)
    requires StateInv(s) && s.pc.Handling? && s.pc.client < |s.clients|
    ensures var m := s.clients[s.pc.client].up.buf;
            m.SetFin? || m.GetFin? ==>
              MidRendezvous(s, s.pc.client, m.key)
              && (s.clients[s.pc.client].phase.SetFinWait? || s.clients[s.pc.client].phase.GetFinWait?)
  {
    hide StateInv;
    RequestKnown(s);
  }

  lemma EntryChange(s: State, step: Step, k: CString)
    requires Enabled(s, step) && Locked(s.store, k) && !Keeps(s, step, k)
    requires step.Finish? ==> s.pc.pending.key != k
    ensures step.Handle? && s.pc.client < |s.clients|
    ensures var m := s.clients[s.pc.client].up.buf; (m.SetFin? || m.GetFin?) && m.key == k
  {
    hide Respond;
    assert step.Handle?;
    RespondKeepsLocked(s.store, s.pc.client, s.clients[s.pc.client].up.buf, step.f, k);
  }

  // ----- the FIN handlers, faults, buffers ------------------------------------------------

  // When a FIN is handled its key is in the database and locked by a grant of
  // the matching kind to its sender.
  lemma FinIsTrustworthy(s: State, f: Fresh)
    requires Reachable(s) && Enabled(s, Handle(f))
    ensures var i, m := s.pc.client, s.clients[s.pc.client].up.buf;
            m.SetFin? || m.GetFin? ==>
              && m.key in s.store.db && s.store.db[m.key].mr.Some?
              && s.store.db[m.key].mr.value in s.store.regions
              && s.store.regions[s.store.db[m.key].mr.value] ==
                 Region(i, s.store.db[m.key].addr, s.store.db[m.key].size,
                        if m.SetFin? then RemoteWrite else RemoteRead)
  {
    ReachableInv(s);
    RequestKnown(s);
    var m := s.clients[s.pc.client].up.buf;
    if m.SetFin? || m.GetFin? {
      FinTrusted(s);
    }
  }

  // No handler dereferences a missing entry or overruns a block, and no client
  // gets a message it does not expect or accesses memory it must not.
  lemma NoFaults(s: State)
    requires Reachable(s)
    ensures !s.pc.Crashed?
    ensures forall i | 0 <= i < |s.clients| :: !s.clients[i].phase.Broken?
  {
    ReachableInv(s);
    forall i | 0 <= i < |s.clients|
      ensures !s.clients[i].phase.Broken?
    {
      assert ClientOk(Views(s)[i], i, WorldOf(s));
    }
  }

  // One receive buffer per direction is enough: a message lands only when the
  // previous one has been consumed and nobody is still reading it, and it
  // always finds a posted receive. What either side believes it has posted and
  // not polled is what the adapter has.
  lemma ReceiveBufferSafe(s: State, i: nat)
    requires Reachable(s) && i < |s.clients|
    ensures var c := s.clients[i];
            && |c.up.flight| + c.up.ready + |c.down.flight| + c.down.ready <= 1
            && (c.up.flight != [] ==> c.up.ready == 0 && !HandlingNow(s, i) && CanLand(c.up))
            && (c.down.flight != [] ==> c.down.ready == 0 && Waiting(c.phase) && CanLand(c.down))
            && c.up.routs == c.up.free + c.up.ready && c.down.routs == c.down.free + c.down.ready
            && 1 <= c.up.routs <= s.rxDepth && 1 <= c.down.routs <= s.rxDepth
            && (s.rxDepth > 10 ==> c.up.routs > 10 && c.down.routs > 10)
            && (c.up.flight != [] ==> c.up.free >= 1) && (c.down.flight != [] ==> c.down.free >= 1)
  {
    ReachableInv(s);
    NotJammed(s, i);
    assert ClientOk(Views(s)[i], i, WorldOf(s));
  }

  // Every message ever outstanding fits the control message it travels in.
  lemma MessagesFit(s: State, i: nat)
    requires Reachable(s) && i < |s.clients|
    ensures ViewOf(s, i).token.ToServer? || ViewOf(s, i).token.ToClient? ==> Fits(ViewOf(s, i).token.msg)
  {
    ReachableInv(s);
    var v := ViewOf(s, i);
    assert ClientOk(Views(s)[i], i, WorldOf(s));
    hide Inv, ClientOk, Fits;
    NotJammed(s, i);
    if v.token.ToServer? || v.token.ToClient? {
      TokenFits(v, i, Views(s), WorldOf(s));
    }
  }

  lemma TokenFits(v: View, i: nat, views: seq<View>, w: World)
    requires ClientOk(v, i, w) && MemoryOk(w) && RegionsOk(views, w)
    requires v.token.ToServer? || v.token.ToClient?
    ensures Fits(v.token.msg)
  {
  }

  // ----- shutdown ---------------------------------------------------------------------------

  // Call n has returned.
  predicate Answered(ext: seq<Event>, n: nat) {
    exists m :: 0 <= m < |ext| && ext[m].Return? && ext[m].id == n
  }

  // Every call is either its client's current one or has returned.
  predicate CallsAccounted(ext: seq<Event>, clients: seq<Client>) {
    forall n | 0 <= n < |ext| && ext[n].Invoke? ::
      && ext[n].client < |clients|
      && var p := clients[ext[n].client].phase;
         Answered(ext, n) || (Active(p) && p.id == n)
  }

  lemma AnsweredStays(ext: seq<Event>, e: Event, n: nat)
    ensures Answered(ext, n) ==> Answered(ext + [e], n)
    ensures e.Return? && e.id == n ==> Answered(ext + [e], n)
  {
    if Answered(ext, n) {
      var m :| 0 <= m < |ext| && ext[m].Return? && ext[m].id == n;
      assert (ext + [e])[m] == ext[m];
    }
    assert (ext + [e])[|ext|] == e;
  }

  // The clients went from `clients` to `clients'` with these new events: a
  // call starts only at its Invoke and ends only at its Return.
  predicate EventsExplain(n: nat, clients: seq<Client>, es: seq<Event>, clients': seq<Client>) {
    && |es| <= 1 && |clients'| == |clients|
    && (forall e | e in es && e.Invoke? ::
          && e.client < |clients| && !Active(clients[e.client].phase)
          && Active(clients'[e.client].phase) && clients'[e.client].phase.id == n)
    && (forall i | 0 <= i < |clients| && Active(clients[i].phase) ::
          || (Active(clients'[i].phase) && clients'[i].phase.id == clients[i].phase.id)
          || (|es| == 1 && es[0].Return? && es[0].id == clients[i].phase.id))
  }

  lemma AccountedExtends(ext: seq<Event>, clients: seq<Client>, es: seq<Event>, clients': seq<Client>)
    requires CallsAccounted(ext, clients) && EventsExplain(|ext|, clients, es, clients')
    ensures CallsAccounted(ext + es, clients')
  {
    var ext' := ext + es;
    forall n | 0 <= n < |ext'| && ext'[n].Invoke?
      ensures ext'[n].client < |clients'|
      ensures var p := clients'[ext'[n].client].phase; Answered(ext', n) || (Active(p) && p.id == n)
    {
      if n < |ext| {
        assert ext'[n] == ext[n];
        if |es| == 1 {
          assert es == [es[0]];
          AnsweredStays(ext, es[0], n);
        } else {
          assert ext' == ext;
        }
      } else {
        assert ext'[n] == es[0];
      }
    }
  }

  lemma EventsOfBegin(s: State, i: nat)
    requires Enabled(s, Begin(i)) && !Apply(s, Begin(i)).clients[i].phase.Broken?
    ensures Apply(s, Begin(i)).ext == s.ext + [Invoke(i, s.clients[i].script[0])]
    ensures EventsExplain(|s.ext|, s.clients, [Invoke(i, s.clients[i].script[0])], Apply(s, Begin(i)).clients)
  {
    hide OpFits;
  }

  lemma EventsOfReceive(s: State, i: nat, junk: seq<byte>) returns (es: seq<Event>)
    requires Enabled(s, Receive(i, junk)) && !Apply(s, Receive(i, junk)).clients[i].phase.Broken?
    ensures Apply(s, Receive(i, junk)).ext == s.ext + es
    ensures EventsExplain(|s.ext|, s.clients, es, Apply(s, Receive(i, junk)).clients)
  {
    hide Polled;
    var answer := Received(s.clients[i].phase, s.clients[i].down.buf, junk).1;
    es := if answer.Some? then [Return(i, s.clients[i].phase.id, answer.value)] else [];
  }

  // Other steps leave every client in its call.
  lemma NoEvents(s: State, step: Step)
    requires Enabled(s, step) && !step.Begin? && !step.Receive?
    requires forall i | 0 <= i < |s.clients| == |Apply(s, step).clients| :: !Apply(s, step).clients[i].phase.Broken?
    ensures Apply(s, step).ext == s.ext
    ensures EventsExplain(|s.ext|, s.clients, [], Apply(s, step).clients)
  {
    hide Respond, ValidAccess, Commits, FreshFor, CanLand, Polled, Land, Post, OpOf;
  }

  // A step adds at most one event, and no client leaves its call but by
  // returning from it.
  lemma EventsOfStep(s: State, step: Step) returns (es: seq<Event>)
    requires Enabled(s, step) && forall i | 0 <= i < |s.clients| :: !Apply(s, step).clients[i].phase.Broken?
    ensures Apply(s, step).ext == s.ext + es
    ensures EventsExplain(|s.ext|, s.clients, es, Apply(s, step).clients)
  {
    hide Apply, EventsExplain;
    SameNumber(s, step);
    match step
    case Begin(i) =>
      es := [Invoke(i, s.clients[i].script[0])];
      EventsOfBegin(s, i);
    case Receive(i, junk) => es := EventsOfReceive(s, i, junk);
    case _ =>
      es := [];
      NoEvents(s, step);
  }

  lemma NoBroken(s: State)
    requires StateInv(s)
    ensures forall i | 0 <= i < |s.clients| :: !s.clients[i].phase.Broken?
  {
    forall i | 0 <= i < |s.clients|
      ensures !s.clients[i].phase.Broken?
    {
      assert ClientOk(Views(s)[i], i, WorldOf(s));
    }
  }

  lemma CallsAccountedStep(s: State, step: Step)
    requires StateInv(s) && Enabled(s, step) && CallsAccounted(s.ext, s.clients)
    ensures CallsAccounted(Apply(s, step).ext, Apply(s, step).clients)
  {
    hide StateInv, Enabled, Apply, EventsExplain, CallsAccounted;
    StepKeepsInv(s, step);
    NoBroken(Apply(s, step));
    SameNumber(s, step);
    var es := EventsOfStep(s, step);
    AccountedExtends(s.ext, s.clients, es, Apply(s, step).clients);
  }

  lemma SameNumber(s: State, step: Step)
    requires Enabled(s, step)
    ensures |Apply(s, step).clients| == |s.clients|
  {
    hide Respond;
  }

  lemma {:induction false} CallsAccountedRun(s0: State, steps: seq<Step>)
    requires Init(s0) && ValidRun(s0, steps)
    ensures CallsAccounted(Execute(s0, steps).ext, Execute(s0, steps).clients)
    decreases |steps|
  {
    if steps != [] {
      var before := steps[..|steps| - 1];
      CallsAccountedRun(s0, before);
      InitInv(s0);
      RunKeepsInv(s0, before);
      hide StateInv, CallsAccounted, Apply, Enabled, Init;
      CallsAccountedStep(Execute(s0, before), steps[|steps| - 1]);
    } else {
      assert Execute(s0, steps) == s0;
    }
  }

  // The server returns exactly when every client has finished its script and
  // its shutdown message has been taken. Then nothing is outstanding, no key is
  // locked, no region is registered, and every call has returned.
  lemma CleanShutdown(s: State)
    requires Reachable(s)
    ensures s.pc.Stopped? <==> forall i | 0 <= i < |s.clients| :: Gone(ViewOf(s, i))
    ensures s.pc.Stopped? ==>
              && (forall i | 0 <= i < |s.clients| ::
                    && s.clients[i].script == []
                    && s.clients[i].up.flight == [] && s.clients[i].up.ready == 0
                    && s.clients[i].down.flight == [] && s.clients[i].down.ready == 0)
              && (forall k | k in s.store.db :: s.store.db[k].mr.None?)
              && s.store.regions == map[]
              && (forall n | 0 <= n < |s.ext| && s.ext[n].Invoke? :: Answered(s.ext, n))
  {
    ReachableInv(s);
    StoppedExactly(s);
    if s.pc.Stopped? {
      StoppedQuiet(s);
      var s0, steps :| Init(s0) && ValidRun(s0, steps) && Execute(s0, steps) == s;
      CallsAccountedRun(s0, steps);
      hide Inv, Init, ValidRun, Execute, ShutDownsOk;
      forall n | 0 <= n < |s.ext| && s.ext[n].Invoke?
        ensures Answered(s.ext, n)
      {
        assert Gone(ViewOf(s, s.ext[n].client));
      }
      forall i | 0 <= i < |s.clients|
        ensures s.clients[i].script == []
        ensures s.clients[i].up.flight == [] && s.clients[i].up.ready == 0
        ensures s.clients[i].down.flight == [] && s.clients[i].down.ready == 0
      {
        assert Gone(ViewOf(s, i));
      }
    }
  }

  lemma StoppedExactly(s: State)
    requires StateInv(s)
    ensures s.pc.Stopped? <==> forall i | 0 <= i < |s.clients| :: Gone(ViewOf(s, i))
  {
    hide Inv;
    if s.pc.Stopped? {
      AllGone(Views(s));
      assert forall i | 0 <= i < |s.clients| :: Gone(Views(s)[i]);
    }
    if forall i | 0 <= i < |s.clients| :: Gone(ViewOf(s, i)) {
      EveryoneGone(Views(s));
    }
  }

  // A client that has not closed keeps the server running.
  lemma OpenMeansRunning(s: State, i: nat)
    requires StateInv(s) && i < |s.clients| && !s.clients[i].phase.Closed?
    ensures !s.pc.Stopped? && !Gone(ViewOf(s, i)) && s.at < |s.clients|
  {
    assert !Gone(ViewOf(s, i));
    StoppedExactly(s);
    hide Inv, ShutDownsOk;
  }

  lemma StoppedQuiet(s: State)
    requires StateInv(s) && s.pc.Stopped? && forall i | 0 <= i < |s.clients| :: Gone(ViewOf(s, i))
    ensures forall k | k in s.store.db :: s.store.db[k].mr.None?
    ensures s.store.regions == map[]
  {
    var views, w := Views(s), WorldOf(s);
    forall i | 0 <= i < |views|
      ensures Held(views[i]).None?
    {
      assert Gone(ViewOf(s, i));
    }
    hide Views, ViewOf, Held, IsLinearization, DataOk, MemoryOk, ClientOk;
    assert w.regions == map[] by {
      assert forall r :: r !in w.regions;
    }
  }
}
