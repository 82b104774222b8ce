// The client program is the client of the transition system: between the start
// and the return of a call, in any run and whatever else happens in between,
// the client's steps post, move and receive what the program's call does.
module ClientRefinement {
  import opened Messages
  import opened History
  import opened ServerStore
  import opened Protocol
  import opened ProtocolRuns
  import opened ProtocolTheorems
  import opened ProtocolContention
  import opened KvClient

  // The latest call of a client as an observer of its connection sees it: what
  // it has received, posted and moved, and how it ended.
  datatype Talk = Talk(
    id: nat, op: Op, replies: seq<Msg>, actions: seq<Action>, moved: map<nat, byte>, block: seq<byte>,
    answer: Option<Answer>)

  // The message a step of client i puts on the way to the server.
  function Posted(c: Client, c': Client): seq<Action> {
    if |c.up.flight| < |c'.up.flight| then [Send(c'.up.flight[|c.up.flight|])] else []
  }

  // The transferred bytes as a block.
  function BlockOf(moved: map<nat, byte>, size: nat): (block: seq<byte>)
    ensures |block| == size
  {
    seq(size, x => if x in moved then moved[x] else 0)
  }

  function Observed(s: State, step: Step, i: nat, talk: Option<Talk>): Option<Talk>
    requires Enabled(s, step) && i < |s.clients| == |Apply(s, step).clients|
  {
    var s' := Apply(s, step);
    var c, c' := s.clients[i], s'.clients[i];
    match step
    case Begin(j) => if j == i then Some(Talk(|s.ext|, c.script[0], [], Posted(c, c'), map[], [], None)) else talk
    case Receive(j, _) =>
      if j == i && talk.Some? then
        Some(talk.value.(replies := talk.value.replies + [c.down.buf],
                         answer := if |s.ext| < |s'.ext| && s'.ext[|s.ext|].Return? then Some(s'.ext[|s.ext|].answer)
                                   else None))
      else talk
    case WriteByte(j, x) =>
      if j == i && talk.Some? && c.phase.va in s'.store.heap && x < |s'.store.heap[c.phase.va]| then
        Some(talk.value.(moved := talk.value.moved[x := s'.store.heap[c.phase.va][x]]))
      else talk
    case ReadByte(j, x) =>
      if j == i && talk.Some? && c.phase.va in s.store.heap && x < |s.store.heap[c.phase.va]| then
        Some(talk.value.(moved := talk.value.moved[x := s.store.heap[c.phase.va][x]]))
      else talk
    case SendSetFin(j) =>
      if j == i && talk.Some? then
        var block := BlockOf(talk.value.moved, |c.phase.value| + 1);
        Some(talk.value.(actions :=
                           talk.value.actions + [WriteRemote(c.phase.va, c.phase.rkey, block)] + Posted(c, c')))
      else talk
    case SendGetFin(j) =>
      if j == i && talk.Some? then
        var read := ReadRemote(c.phase.va, c.phase.rkey, |c.phase.local|);
        Some(talk.value.(block := BlockOf(talk.value.moved, |c.phase.local|),
                         actions := talk.value.actions + [read] + Posted(c, c')))
      else talk
    case _ => talk
  }

  function TalkOf(s0: State, steps: seq<Step>, i: nat): Option<Talk>
    requires ValidRun(s0, steps)
    decreases |steps|
  {
    if steps == [] then None
    else
      var before := steps[..|steps| - 1];
      var s := Execute(s0, before);
      SameNumber(s, steps[|steps| - 1]);
      if i < |s.clients| then Observed(s, steps[|steps| - 1], i, TalkOf(s0, before, i)) else None
  }

  // ----- what the talk looks like in each phase -----------------------------------------

  // The bytes outside `todo` have been moved, and they are those of the block.
  predicate MovedSo(moved: map<nat, byte>, block: seq<byte>, todo: set<nat>) {
    && (forall x | x in moved :: x < |block| && moved[x] == block[x])
    && (forall x | 0 <= x < |block| && x !in todo :: x in moved)
  }

  // The talk is a whole call of the program.
  predicate Ended(t: Talk) {
    && t.answer.Some? && t.replies != []
    && (t.op.Get? && t.replies[0].GetGrant? ==> |t.block| == t.replies[0].size)
    && Call(t.op, t.replies, t.block) == Outcome(t.answer, t.actions, |t.replies|)
  }

  predicate TalkOk(p: Phase, talk: Option<Talk>) {
    if !Active(p) then talk.Some? ==> Ended(talk.value)
    else
      talk.Some? &&
      var t := talk.value;
      && t.op == OpOf(p) && t.answer == None
      && match p
         case SetEagerWait(_, k, v) =>
           EagerGuard(k, v) && t.replies == [] && t.moved == map[] && t.block == []
           && t.actions == [Send(SetRequest(k, v))]
         case SetGrantWait(_, k, v) =>
           !EagerGuard(k, v) && t.replies == [] && t.moved == map[] && t.block == []
           && t.actions == [Send(SetRequest(k, v))]
         case SetWriting(_, k, v, va, rkey, todo) =>
           !EagerGuard(k, v) && t.replies == [SetGrant(va, rkey)] && t.block == []
           && t.actions == [Send(SetRequest(k, v))] && MovedSo(t.moved, v + [0], todo)
         case SetFinWait(_, k, v) =>
           !EagerGuard(k, v) && |t.replies| == 1 && t.replies[0].SetGrant? && t.block == []
           && t.actions == [Send(SetRequest(k, v)),
                            WriteRemote(t.replies[0].va, t.replies[0].rkey, Moved(v + [0])), Send(SetFin(k))]
         case GetWait(_, k) =>
           t.replies == [] && t.moved == map[] && t.block == [] && t.actions == [Send(GetKey(k))]
         case GetReading(_, k, va, rkey, local, todo) =>
           t.replies == [GetGrant(|local|, va, rkey)] && t.block == []
           && t.actions == [Send(GetKey(k))] && MovedSo(t.moved, local, todo)
         case GetFinWait(_, k, local) =>
           |t.replies| == 1 && t.replies[0].GetGrant? && t.replies[0].size == |local| && t.block == local
           && t.actions == [Send(GetKey(k)),
                            ReadRemote(t.replies[0].va, t.replies[0].rkey, TransferLength(|local|)), Send(GetFin(k))]
  }

  lemma AllMoved(moved: map<nat, byte>, block: seq<byte>)
    requires MovedSo(moved, block, {})
    ensures BlockOf(moved, |block|) == block
  {
  }

  // ----- every step keeps it -----------------------------------------------------------------

  lemma BeginTalks(s: State, i: nat, talk: Option<Talk>)
    requires Enabled(s, Begin(i)) && !Apply(s, Begin(i)).clients[i].phase.Broken?
    ensures TalkOk(Apply(s, Begin(i)).clients[i].phase, Observed(s, Begin(i), i, talk))
  {
  }

  // A call that ends with its first reply.
  lemma ShortCall(op: Op, m: Msg)
    requires var (p, _) := Started(op, 0); Received(p, m, []).1.Some?
    ensures var (p, request) := Started(op, 0);
            Call(op, [m], []) == Outcome(Received(p, m, []).1, [Send(request)], 1)
  {
    assert [Send(Started(op, 0).1)] + [] == [Send(Started(op, 0).1)];
  }

  lemma FirstReply(p: Phase, m: Msg, junk: seq<byte>, t: Talk)
    requires p.SetEagerWait? || p.SetGrantWait? || p.GetWait?
    requires TalkOk(p, Some(t)) && (m.GetGrant? ==> |junk| == m.size)
    requires var (p', answer) := Received(p, m, junk); !p'.Broken?
    ensures var (p', answer) := Received(p, m, junk);
            TalkOk(p', Some(t.(replies := t.replies + [m], answer := answer)))
  {
    var (p', answer) := Received(p, m, junk);
    assert t.replies + [m] == [m];
    if answer.Some? {
      assert Received(Started(t.op, 0).0, m, []).1 == answer;
      ShortCall(t.op, m);
      hide Call;
    } else if p'.GetReading? {
      assert MovedSo(t.moved, p'.local, p'.todo);
    } else {
      assert MovedSo(t.moved, p'.value + [0], p'.todo);
    }
  }

  lemma LastReply(p: Phase, m: Msg, junk: seq<byte>, t: Talk)
    requires p.SetFinWait? || p.GetFinWait?
    requires TalkOk(p, Some(t))
    requires var (p', answer) := Received(p, m, junk); !p'.Broken?
    ensures var (p', answer) := Received(p, m, junk);
            TalkOk(p', Some(t.(replies := t.replies + [m], answer := answer)))
  {
    var rs := t.replies + [m];
    if p.SetFinWait? {
      SetConversation(p.key, p.value, rs);
    } else {
      GetConversation(p.key, rs, p.local);
    }
    hide Call;
  }

  lemma ReceiveTalks(s: State, i: nat, junk: seq<byte>, t: Talk)
    requires Enabled(s, Receive(i, junk)) && !Apply(s, Receive(i, junk)).clients[i].phase.Broken?
    requires TalkOk(s.clients[i].phase, Some(t))
    ensures TalkOk(Apply(s, Receive(i, junk)).clients[i].phase, Observed(s, Receive(i, junk), i, Some(t)))
  {
    var p, m := s.clients[i].phase, s.clients[i].down.buf;
    hide TalkOk, Received;
    if p.SetFinWait? || p.GetFinWait? {
      LastReply(p, m, junk, t);
    } else {
      FirstReply(p, m, junk, t);
    }
  }

  lemma ByteTalks(s: State, step: Step, t: Talk)
    requires Enabled(s, step) && (step.WriteByte? || step.ReadByte?)
    requires !Apply(s, step).clients[step.i].phase.Broken?
    requires TalkOk(s.clients[step.i].phase, Some(t))
    ensures TalkOk(Apply(s, step).clients[step.i].phase, Observed(s, step, step.i, Some(t)))
  {
  }

  lemma FinTalks(s: State, step: Step, t: Talk)
    requires Enabled(s, step) && (step.SendSetFin? || step.SendGetFin?)
    requires TalkOk(s.clients[step.i].phase, Some(t))
    requires TransferLength(Extent(s.clients[step.i].phase)) == Extent(s.clients[step.i].phase)
    ensures TalkOk(Apply(s, step).clients[step.i].phase, Observed(s, step, step.i, Some(t)))
  {
    var p := s.clients[step.i].phase;
    if p.SetWriting? {
      AllMoved(t.moved, p.value + [0]);
      assert Moved(p.value + [0]) == p.value + [0];
    } else {
      AllMoved(t.moved, p.local);
    }
  }

  lemma OthersTalk(s: State, step: Step, i: nat, talk: Option<Talk>)
    requires Enabled(s, step) && i < |s.clients| && TalkOk(s.clients[i].phase, talk)
    requires step.Poll? || step.Handle? || step.Finish? || step.Quit? || step.LandUp? || step.LandDown? || step.i != i
    ensures |Apply(s, step).clients| == |s.clients|
    ensures TalkOk(Apply(s, step).clients[i].phase, Observed(s, step, i, talk))
  {
    hide Respond, TalkOk, Received, Started;
    var p, p' := s.clients[i].phase, Apply(s, step).clients[i].phase;
    assert Observed(s, step, i, talk) == talk;
    assert p' == p || (step.Quit? && p.Idle? && p'.Closed?);
    ClosedTalks(p, p', talk);
  }

  lemma ClosedTalks(p: Phase, p': Phase, talk: Option<Talk>)
    requires TalkOk(p, talk) && (p' == p || (p.Idle? && p'.Closed?))
    ensures TalkOk(p', talk)
  {
  }

  lemma StepTalks(s: State, step: Step, i: nat, talk: Option<Talk>)
    requires Enabled(s, step) && i < |s.clients| && TalkOk(s.clients[i].phase, talk)
    requires |Apply(s, step).clients| == |s.clients| && !Apply(s, step).clients[i].phase.Broken?
    requires var p := s.clients[i].phase;
             p.SetWriting? || p.GetReading? ==> TransferLength(Extent(p)) == Extent(p)
    ensures TalkOk(Apply(s, step).clients[i].phase, Observed(s, step, i, talk))
  {
    if step.Poll? || step.Handle? || step.Finish? || step.Quit? || step.LandUp? || step.LandDown? || step.i != i {
      OthersTalk(s, step, i, talk);
    } else if step.Begin? {
      BeginTalks(s, i, talk);
    } else {
      assert Active(s.clients[i].phase);
      assert talk.Some?;
      hide Apply, TalkOk, Observed, Enabled;
      var t := talk.value;
      if step.Receive? {
        ReceiveTalks(s, i, step.junk, t);
      } else if step.WriteByte? || step.ReadByte? {
        ByteTalks(s, step, t);
      } else {
        FinTalks(s, step, t);
      }
    }
  }

  lemma {:induction false} RunTalks(s0: State, steps: seq<Step>, i: nat)
    requires Init(s0) && ValidRun(s0, steps) && i < |s0.clients|
    ensures |Execute(s0, steps).clients| == |s0.clients|
    ensures TalkOk(Execute(s0, steps).clients[i].phase, TalkOf(s0, steps, i))
    decreases |steps|
  {
    if steps != [] {
      var before, step := steps[..|steps| - 1], steps[|steps| - 1];
      var s := Execute(s0, before);
      RunTalks(s0, before, i);
      InitInv(s0);
      RunKeepsInv(s0, before);
      hide StateInv, TalkOk, Apply, Enabled, Init, Observed;
      StepKeepsInv(s, step);
      NoBroken(Apply(s, step));
      SameNumber(s, step);
      TransfersWhole(s, i);
      StepTalks(s, step, i, TalkOf(s0, before, i));
    }
  }

  // A call that has returned, in any run, was a call of the program: it posted
  // and moved exactly what the program does on these replies, used them all,
  // and returned its answer.
  lemma ReturnedCallIsCall(s0: State, steps: seq<Step>, i: nat)
    requires Init(s0) && ValidRun(s0, steps) && i < |s0.clients|
    ensures |Execute(s0, steps).clients| == |s0.clients|
    ensures var talk := TalkOf(s0, steps, i);
            talk.Some? && !Active(Execute(s0, steps).clients[i].phase) ==> Ended(talk.value)
  {
    RunTalks(s0, steps, i);
    hide Call;
  }

  // ----- the call in the history -------------------------------------------------------

  // The history has the talk's call, and its return once it has an answer.
  predicate InHistory(t: Talk, i: nat, ext: seq<Event>) {
    && t.id < |ext| && ext[t.id] == Invoke(i, t.op)
    && (t.answer.Some? ==> Return(i, t.id, t.answer.value) in ext)
  }

  predicate HistoryOk(p: Phase, talk: Option<Talk>, i: nat, ext: seq<Event>) {
    && (talk.Some? ==> InHistory(talk.value, i, ext))
    && (Active(p) && talk.Some? ==> p.id == talk.value.id && talk.value.answer.None?)
  }

  lemma ReceiveHistory(s: State, i: nat, junk: seq<byte>, talk: Option<Talk>)
    requires Enabled(s, Receive(i, junk)) && HistoryOk(s.clients[i].phase, talk, i, s.ext)
    ensures HistoryOk(Apply(s, Receive(i, junk)).clients[i].phase, Observed(s, Receive(i, junk), i, talk), i,
                      Apply(s, Receive(i, junk)).ext)
  {
    var (phase, answer) := Received(s.clients[i].phase, s.clients[i].down.buf, junk);
    assert Active(s.clients[i].phase);
    var ext' := Apply(s, Receive(i, junk)).ext;
    if answer.Some? {
      assert ext'[|s.ext|] == Return(i, s.clients[i].phase.id, answer.value);
    }
  }

  lemma OthersHistory(s: State, step: Step, i: nat, talk: Option<Talk>)
    requires Enabled(s, step) && i < |s.clients| == |Apply(s, step).clients|
    requires step.Poll? || step.Handle? || step.Finish? || step.Quit? || step.LandUp? || step.LandDown? || step.i != i
    requires HistoryOk(s.clients[i].phase, talk, i, s.ext)
    ensures HistoryOk(Apply(s, step).clients[i].phase, Observed(s, step, i, talk), i, Apply(s, step).ext)
  {
    hide Respond, Received, Started;
  }

  lemma StepHistory(s: State, step: Step, i: nat, talk: Option<Talk>)
    requires Enabled(s, step) && i < |s.clients| == |Apply(s, step).clients|
    requires HistoryOk(s.clients[i].phase, talk, i, s.ext)
    ensures HistoryOk(Apply(s, step).clients[i].phase, Observed(s, step, i, talk), i, Apply(s, step).ext)
  {
    hide Respond;
    if step.Poll? || step.Handle? || step.Finish? || step.Quit? || step.LandUp? || step.LandDown? || step.i != i {
      hide Apply, Observed, HistoryOk;
      OthersHistory(s, step, i, talk);
    } else if step.Receive? {
      ReceiveHistory(s, i, step.junk, talk);
    }
  }

  lemma {:induction false} RunHistory(s0: State, steps: seq<Step>, i: nat)
    requires Init(s0) && ValidRun(s0, steps) && i < |s0.clients| == |Execute(s0, steps).clients|
    ensures HistoryOk(Execute(s0, steps).clients[i].phase, TalkOf(s0, steps, i), i, Execute(s0, steps).ext)
    decreases |steps|
  {
    if steps != [] {
      var before, step := steps[..|steps| - 1], steps[|steps| - 1];
      SameNumber(Execute(s0, before), step);
      RunHistory(s0, before, i);
      hide Apply, Enabled, Observed, Init, HistoryOk;
      StepHistory(Execute(s0, before), step, i, TalkOf(s0, before, i));
    }
  }

  // A call that has returned took effect with its answer, and was turned away
  // only with a rival.
  lemma TookEffect(s0: State, steps: seq<Step>, i: nat, t: Talk)
    requires Init(s0) && ValidRun(s0, steps) && i < |s0.clients| == |Execute(s0, steps).clients|
    requires TalkOf(s0, steps, i) == Some(t) && t.answer.Some?
    ensures Commit(t.id, t.op, t.answer.value) in Execute(s0, steps).lin
    ensures t.answer.value.Busy? ==> !Unrivalled(Execute(s0, steps).ext, t.id)
    ensures t.op.Set? ==> t.answer.value.Stored? || t.answer.value.Busy?
    ensures t.op.Get? ==> !t.answer.value.Stored?
  {
    var s := Execute(s0, steps);
    RunHistory(s0, steps, i);
    assert Reachable(s);
    var n :| 0 <= n < |s.ext| && s.ext[n] == Return(i, t.id, t.answer.value);
    hide Reachable, Unrivalled, Execute, TalkOf;
    var a := EffectOf(s, n);
    ReachableLinearizable(s);
    LegalAnswer(s.lin, a);
    BusyMeansRival(s);
  }

  // The set program, given the replies of any returned set of any run, posts
  // and writes what the run's client did. Its code tells what became of the
  // set: 0, and it has stored its value; 2, and it was turned away by a rival.
  method PerformSet(t: Talk, ghost s0: State, ghost steps: seq<Step>, ghost i: nat)
    returns (connection: Connection, code: int)
    requires Init(s0) && ValidRun(s0, steps) && i < |s0.clients| == |Execute(s0, steps).clients|
    requires TalkOf(s0, steps, i) == Some(t) && !Active(Execute(s0, steps).clients[i].phase) && t.op.Set?
    ensures fresh(connection) && connection.actions == t.actions && connection.received == |t.replies|
    ensures code == 0 || code == 2
    ensures code == 0 ==> Commit(t.id, t.op, Stored) in Execute(s0, steps).lin
    ensures code == 2 ==> Commit(t.id, t.op, Busy) in Execute(s0, steps).lin
                          && !Unrivalled(Execute(s0, steps).ext, t.id)
  {
    connection := new Connection();
    ReturnedCallIsCall(s0, steps, i);
    TookEffect(s0, steps, i, t);
    SetReplies(t);
    CallEnds(t.op, t.replies, [InProgress, InProgress], []);
    hide Call;
    assert t.op == Set(t.op.key, t.op.value);
    code := connection.KvSet(t.op.key, t.op.value, t.replies + [InProgress, InProgress], (0, 0));
  }

  // What the replies of a returned set can have been.
  lemma SetReplies(t: Talk)
    requires t.op.Set? && Ended(t)
    ensures EagerGuard(t.op.key, t.op.value) || t.replies[0].InProgress? || t.replies[0].SetGrant?
    ensures Call(t.op, t.replies, []) == Call(t.op, t.replies, t.block)
  {
    var p := Started(t.op, 0).0;
    assert Play(p, t.replies, t.block).answer.Some?;
    SetPlay(p, t.replies, t.block);
  }

  lemma SetPlay(p: Phase, replies: seq<Msg>, block: seq<byte>)
    requires p.SetEagerWait? || p.SetGrantWait? || p.SetFinWait?
    requires replies != [] && Play(p, replies, block).answer.Some?
    ensures p.SetGrantWait? ==> replies[0].InProgress? || replies[0].SetGrant?
    ensures Play(p, replies, []) == Play(p, replies, block)
    decreases |replies|
  {
    var p' := Received(p, replies[0], block).0;
    assert p' == Received(p, replies[0], []).0;
    if p'.SetWriting? {
      SetPlay(SetFinWait(p'.id, p'.key, p'.value), replies[1..], block);
    }
  }

  method PerformGet(t: Talk, ghost s0: State, ghost steps: seq<Step>, ghost i: nat)
    returns (connection: Connection, code: int, value: Option<CString>)
    requires Init(s0) && ValidRun(s0, steps) && i < |s0.clients| == |Execute(s0, steps).clients|
    requires TalkOf(s0, steps, i) == Some(t) && !Active(Execute(s0, steps).clients[i].phase) && t.op.Get?
    ensures fresh(connection) && connection.actions == t.actions && connection.received == |t.replies|
    ensures code == 0 || code == 1
    ensures code == 0 ==> value.Some? && Commit(t.id, t.op, Found(value.value)) in Execute(s0, steps).lin
    ensures code == 1 ==> value == None
                          && (|| Commit(t.id, t.op, Missing) in Execute(s0, steps).lin
                              || (&& Commit(t.id, t.op, Busy) in Execute(s0, steps).lin
                                  && !Unrivalled(Execute(s0, steps).ext, t.id)))
  {
    connection := new Connection();
    ReturnedCallIsCall(s0, steps, i);
    TookEffect(s0, steps, i, t);
    CallEnds(t.op, t.replies, [InProgress, InProgress], t.block);
    var replies := t.replies + [InProgress, InProgress];
    if replies[0].GetGrant? {
      GetConversation(t.op.key, replies, t.block);
    }
    hide Call;
    assert t.op == Get(t.op.key);
    code, value := connection.KvGet(t.op.key, replies, t.block);
  }

  // ----- what a caller may conclude ---------------------------------------------------------

  // kv_set has a code of its own for each of its two outcomes.
  lemma CodesOfSet(answer: Option<Answer>)
    ensures SetCode(answer) == 0 <==> answer == Some(Stored)
    ensures SetCode(answer) == 2 <==> answer == Some(Busy)
    ensures SetCode(answer) in {0, 1, 2}
  {
  }

  // The code 0 means that the table has the value from then on, the code 2 that
  // the table is what it was.
  lemma SetChangesTable(s: State, a: nat)
    requires Reachable(s) && a < |s.lin| && s.lin[a].op.Set?
    ensures Replay(s.lin[..a]).Some? && Replay(s.lin[..a + 1]).Some?
    ensures s.lin[a].answer.Stored? ==>
              Replay(s.lin[..a + 1]).value == Replay(s.lin[..a]).value[s.lin[a].op.key := s.lin[a].op.value]
    ensures s.lin[a].answer.Busy? ==> Replay(s.lin[..a + 1]) == Replay(s.lin[..a])
  {
    hide Reachable, Replay, CoversReturns, OnlyInvoked, NoRepeats, RespectsTime;
    ReachableLinearizable(s);
    EffectAt(s.lin, a);
  }

  // kv_get returns the same code for a busy key as for one that is not there.
  lemma CodesOfGet(a: Answer, b: Answer)
    ensures GetCode(Some(a)) == GetCode(Some(b)) <==> (a.Found? <==> b.Found?)
    ensures GetCode(Some(Busy)) == GetCode(Some(Missing)) == 1
  {
  }

  // Only a get without a rival may take its code 1 to mean that there was no
  // value: then no set of the key had stored before it took effect.
  lemma FailedGetFoundNothing(s: State, n: nat)
    requires Reachable(s) && n < |s.ext| && s.ext[n].Return? && GetCode(Some(s.ext[n].answer)) == 1
    requires s.ext[n].id < |s.ext| && s.ext[s.ext[n].id].Invoke? && s.ext[s.ext[n].id].op.Get?
    requires Unrivalled(s.ext, s.ext[n].id)
    ensures s.ext[n].answer.Missing?
    ensures exists a :: 0 <= a < |s.lin| && s.lin[a].id == s.ext[n].id
                     && LastStored(s.lin[..a], s.ext[s.ext[n].id].op.key) == None
  {
    hide Reachable, Unrivalled;
    UnrivalledIsServed(s, n);
    ReturnedGetIsLatest(s, n);
  }
}
