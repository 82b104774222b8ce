// When a call is turned away as busy, and what calls without competition get.
module ProtocolContention {
  import opened Messages
  import opened History
  import opened ServerStore
  import opened Protocol
  import opened ProtocolInvariant
  import opened ProtocolRuns
  import opened ProtocolTheorems

  // ----- every busy answer has a rival ----------------------------------------------

  lemma BusyCommits(p: Phase, reply: Msg, heap: map<nat, seq<byte>>, n: nat)
    requires n < |Commits(p, reply, heap)| && Commits(p, reply, heap)[n].answer.Busy?
    ensures reply.InProgress? && Active(p) && Commits(p, reply, heap)[n].id == p.id
  {
  }

  // The call of a client that is mid-rendezvous is under way.
  lemma HolderIsOpen(s: State, j: nat)
    requires StateInv(s) && j < |s.clients| && Held(ViewOf(s, j)).Some?
    ensures Active(s.clients[j].phase)
    ensures Open(s.ext, j, s.clients[j].phase.id, OpOf(s.clients[j].phase))
    ensures OpOf(s.clients[j].phase).key == Held(ViewOf(s, j)).value.key
  {
    assert ClientOk(Views(s)[j], j, WorldOf(s));
  }

  lemma CallIsOpen(s: State, i: nat)
    requires StateInv(s) && i < |s.clients| && Active(s.clients[i].phase)
    ensures Open(s.ext, i, s.clients[i].phase.id, OpOf(s.clients[i].phase))
  {
    assert ClientOk(Views(s)[i], i, WorldOf(s));
  }

  // A client turned away now has a rival now.
  lemma BusyNow(s: State, f: Fresh)
    requires Reachable(s) && Enabled(s, Handle(f))
    requires ReactionOf(s, f).React? && ReactionOf(s, f).reply.InProgress?
    ensures Active(s.clients[s.pc.client].phase) && !Unrivalled(s.ext, s.clients[s.pc.client].phase.id)
  {
    hide StateInv, ReactionOf, Reachable, Apply;
    ReachableInv(s);
    BusyIsHonest(s, f);
    var i := s.pc.client;
    var j :| 0 <= j < |s.clients| && j != i && Held(ViewOf(s, j)).Some?
             && Held(ViewOf(s, j)).value.key == s.clients[i].phase.key;
    CallIsOpen(s, i);
    HolderIsOpen(s, j);
    assert Rivals(s.ext, s.clients[j].phase.id, s.clients[i].phase.id);
  }

  // What a step adds to the order of effects.
  lemma CommitsOfStep(s: State, step: Step) returns (cs: seq<Commit>)
    requires Enabled(s, step)
    ensures Apply(s, step).lin == s.lin + cs
    ensures forall n | 0 <= n < |cs| && cs[n].answer.Busy? ::
              step.Handle? && ReactionOf(s, step.f).React? && ReactionOf(s, step.f).reply.InProgress?
              && Active(s.clients[s.pc.client].phase) && cs[n].id == s.clients[s.pc.client].phase.id
  {
    hide Respond, Commits;
    cs := [];
    if step.Handle? && !s.clients[s.pc.client].up.buf.ShutDown? && ReactionOf(s, step.f).React? {
      var r := ReactionOf(s, step.f);
      cs := Commits(s.clients[s.pc.client].phase, r.reply, r.store.heap);
      forall n | 0 <= n < |cs| && cs[n].answer.Busy?
        ensures r.reply.InProgress? && Active(s.clients[s.pc.client].phase)
        ensures cs[n].id == s.clients[s.pc.client].phase.id
      {
        BusyCommits(s.clients[s.pc.client].phase, r.reply, r.store.heap, n);
      }
    }
  }

  // What was explained stays explained, and so is what is new.
  lemma BusyExtends(ext: seq<Event>, lin: seq<Commit>, es: seq<Event>, cs: seq<Commit>)
    requires BusyHasRival(ext, lin)
    requires forall n | 0 <= n < |cs| && cs[n].answer.Busy? :: !Unrivalled(ext, cs[n].id)
    ensures BusyHasRival(ext + es, lin + cs)
  {
    hide Unrivalled;
    forall a | 0 <= a < |lin + cs| && (lin + cs)[a].answer.Busy?
      ensures !Unrivalled(ext + es, (lin + cs)[a].id)
    {
      RivalsStay(ext, es, (lin + cs)[a].id);
    }
  }

  lemma BusyStep(s: State, step: Step)
    requires Reachable(s) && Enabled(s, step) && BusyHasRival(s.ext, s.lin)
    ensures BusyHasRival(Apply(s, step).ext, Apply(s, step).lin)
  {
    hide StateInv, EventsExplain, Apply, Reachable, Unrivalled, ReactionOf, BusyHasRival;
    ReachableInv(s);
    StepKeepsInv(s, step);
    NoBroken(Apply(s, step));
    SameNumber(s, step);
    var cs := CommitsOfStep(s, step);
    var es := EventsOfStep(s, step);
    forall n | 0 <= n < |cs| && cs[n].answer.Busy?
      ensures !Unrivalled(s.ext, cs[n].id)
    {
      BusyNow(s, step.f);
    }
    BusyExtends(s.ext, s.lin, es, cs);
  }

  lemma {:induction false} BusyAlong(s0: State, steps: seq<Step>)
    requires Init(s0) && ValidRun(s0, steps)
    ensures BusyHasRival(Execute(s0, steps).ext, Execute(s0, steps).lin)
    decreases |steps|
  {
    if steps != [] {
      var before := steps[..|steps| - 1];
      BusyAlong(s0, before);
      assert Reachable(Execute(s0, before));
      hide Apply, Enabled, BusyHasRival, Init, Reachable;
      BusyStep(Execute(s0, before), steps[|steps| - 1]);
    }
  }

  // In every history each call that took effect as busy overlapped a call of
  // another client on the same key.
  lemma BusyMeansRival(s: State)
    requires Reachable(s)
    ensures BusyHasRival(s.ext, s.lin)
  {
    var s0, steps :| Init(s0) && ValidRun(s0, steps) && Execute(s0, steps) == s;
    BusyAlong(s0, steps);
  }

  // ----- calls without competition ----------------------------------------------------

  // Where a returned call took effect.
  lemma EffectOf(s: State, n: nat) returns (a: nat)
    requires Reachable(s) && n < |s.ext| && s.ext[n].Return?
    ensures s.ext[n].id < n && s.ext[s.ext[n].id].Invoke?
    ensures a < |s.lin| && s.lin[a] == Commit(s.ext[n].id, s.ext[s.ext[n].id].op, s.ext[n].answer)
  {
    ReachableLinearizable(s);
    var c := Commit(s.ext[n].id, s.ext[s.ext[n].id].op, s.ext[n].answer);
    assert c in s.lin;
    a :| 0 <= a < |s.lin| && s.lin[a] == c;
  }

  // A call that no other client's call on the key overlaps is served: a set
  // stores, a get finds a value or nothing.
  lemma UnrivalledIsServed(s: State, n: nat)
    requires Reachable(s) && n < |s.ext| && s.ext[n].Return? && Unrivalled(s.ext, s.ext[n].id)
    ensures s.ext[n].id < n && s.ext[s.ext[n].id].Invoke?
    ensures s.ext[s.ext[n].id].op.Set? ==> s.ext[n].answer.Stored?
    ensures s.ext[s.ext[n].id].op.Get? ==> s.ext[n].answer.Found? || s.ext[n].answer.Missing?
  {
    var a := EffectOf(s, n);
    BusyMeansRival(s);
    ReachableLinearizable(s);
    LegalAnswer(s.lin, a);
    hide Reachable, Unrivalled;
  }

  // Between a successful set and a get of the same key with no other successful
  // set of the key taking effect in between, the get finds the value, whichever
  // paths the two take; only a get with a rival can be turned away.
  lemma SetThenGet(s: State, a: nat, b: nat)
    requires Reachable(s) && a < b < |s.lin|
    requires s.lin[a].op.Set? && s.lin[a].answer.Stored? && s.lin[b].op == Get(s.lin[a].op.key)
    requires forall n | a < n < b ::
               !(s.lin[n].op.Set? && s.lin[n].op.key == s.lin[a].op.key && s.lin[n].answer.Stored?)
    ensures s.lin[b].answer == Found(s.lin[a].op.value)
            || (s.lin[b].answer == Busy && !Unrivalled(s.ext, s.lin[b].id))
  {
    ReachableLinearizable(s);
    BusyMeansRival(s);
    hide Reachable, IsLinearization, Unrivalled;
    LastStoredAt(s.lin, a, b);
    GetsSeeLatestSet(s.lin, b);
  }

  // Every other set of the key had returned before event n, or was invoked
  // after event q.
  predicate NoOtherSet(ext: seq<Event>, k: CString, n: nat, q: nat) {
    forall m | 0 <= m < |ext| && m != n && ext[m].Invoke? && ext[m].op.Set? && ext[m].op.key == k ::
      ReturnedBefore(ext, m, n) || q < m
  }

  // A set of the key other than the one at a took effect outside [a, b].
  lemma OutOfTheWay(s: State, a: nat, b: nat, c: nat, q: nat)
    requires Reachable(s) && a < |s.lin| && b < |s.lin| && c < |s.lin| && c != a && c != b && q < |s.ext|
    requires s.ext[q].Return? && s.ext[q].id == s.lin[b].id
    requires s.lin[c].op.Set? && s.lin[c].op.key == s.lin[a].op.key
    requires NoOtherSet(s.ext, s.lin[a].op.key, s.lin[a].id, q)
    ensures c < a || b < c
  {
    ReachableLinearizable(s);
    hide Reachable, CoversReturns;
    if ReturnedBefore(s.ext, s.lin[c].id, s.lin[a].id) {
      TookEffectBefore(s.ext, s.lin, c, a);
    } else {
      assert q < s.lin[c].id;
      TookEffectBefore(s.ext, s.lin, b, c);
    }
  }

  // In real time: a get invoked after a set of the key has returned successfully
  // finds the value of that set, if no other set of the key was open from the
  // invocation of the one to the return of the other, and no other client's
  // call on the key overlapped the get.
  lemma UncontendedSetThenGet(s: State, r: nat, q: nat)
    requires Reachable(s) && r < q < |s.ext| && s.ext[r].Return? && s.ext[q].Return?
    requires s.ext[r].answer.Stored? && r < s.ext[q].id < q && s.ext[s.ext[q].id].Invoke?
    requires s.ext[r].id < r && s.ext[s.ext[r].id].Invoke? && s.ext[s.ext[r].id].op.Set?
    requires s.ext[s.ext[q].id].op == Get(s.ext[s.ext[r].id].op.key)
    requires NoOtherSet(s.ext, s.ext[s.ext[r].id].op.key, s.ext[r].id, q) && Unrivalled(s.ext, s.ext[q].id)
    ensures s.ext[q].answer == Found(s.ext[s.ext[r].id].op.value)
  {
    var a := EffectOf(s, r);
    var b := EffectOf(s, q);
    hide Reachable, Unrivalled, NoOtherSet, IsLinearization;
    ReachableLinearizable(s);
    assert ReturnedBefore(s.ext, s.lin[a].id, s.lin[b].id);
    TookEffectBefore(s.ext, s.lin, a, b);
    forall c | a < c < b
      ensures !(s.lin[c].op.Set? && s.lin[c].op.key == s.lin[a].op.key && s.lin[c].answer.Stored?)
    {
      if s.lin[c].op.Set? && s.lin[c].op.key == s.lin[a].op.key {
        OutOfTheWay(s, a, b, c, q);
      }
    }
    SetThenGet(s, a, b);
  }
}
