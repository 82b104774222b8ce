// The server program is the server of the transition system: on what any run
// of the protocol brings it, with one-sided writes falling between, inside and
// behind its handlers, it does exactly what the server's steps do.
module ServerRefinement {
  import opened Messages
  import opened ServerStore
  import opened Protocol
  import opened ProtocolInvariant
  import opened ProtocolRuns
  import opened ProtocolTheorems
  import opened ProtocolProgress
  import opened KvServer

  // What a step means for the server. A message counts when its handler takes
  // it up; the recording of a grant belongs to the handler that posted it.
  function HappeningOf(s: State, step: Step): (hs: seq<Happening>)
    requires Enabled(s, step)
    ensures |hs| <= 1
  {
    match step
    case Poll => if s.clients[s.at].up.ready == 0 then [Visit(None)] else []
    case Handle(f) => [Visit(Some(Arrival(s.clients[s.pc.client].up.buf, f)))]
    case WriteByte(i, _) =>
      var va, heap := s.clients[i].phase.va, Apply(s, step).store.heap;
      if va in heap then [Written(va, heap[va])] else []
    case _ => []
  }

  function Happenings(s0: State, steps: seq<Step>): seq<Happening>
    requires ValidRun(s0, steps)
    decreases |steps|
  {
    if steps == [] then []
    else
      var before := steps[..|steps| - 1];
      Happenings(s0, before) + HappeningOf(Execute(s0, before), steps[|steps| - 1])
  }

  // The messages that a step puts on the way to the clients.
  function RepliesOf(s: State, step: Step): seq<Sent>
    requires Enabled(s, step)
  {
    if step.Handle? && s.pc.client < |Apply(s, step).clients| then
      var i := s.pc.client;
      var was, now := s.clients[i].down.flight, Apply(s, step).clients[i].down.flight;
      if |was| < |now| then [Sent(i, now[|was|])] else []
    else []
  }

  function Replies(s0: State, steps: seq<Step>): seq<Sent>
    requires ValidRun(s0, steps)
    decreases |steps|
  {
    if steps == [] then []
    else
      var before := steps[..|steps| - 1];
      Replies(s0, before) + RepliesOf(Execute(s0, before), steps[|steps| - 1])
  }

  // The program between two visits against the server of the transition system
  // anywhere: a message being handled is still to come, a grant being recorded
  // is recorded already.
  predicate Alike(s: State, v: Served) {
    && v.shutdowns == s.shutdowns && v.stopped == s.pc.Stopped?
    && match s.pc
       case Handling(i) => v.store == s.store && v.at == i && s.at == NextClient(i, |s.clients|)
       case Granting(_, p) => v.store == Recorded(s.store, Some(p)) && v.at == s.at
       case Crashed => false
       case _ => v.store == s.store && v.at == s.at
  }

  lemma HandleAlike(s: State, f: Fresh, v: Served)
    requires StateInv(s) && Enabled(s, Handle(f)) && Alike(s, v)
    ensures var arrival := Some(Arrival(s.clients[s.pc.client].up.buf, f));
            && Manageable(v.store, v.at, arrival)
            && Alike(Apply(s, Handle(f)), Visited(v, |s.clients|, arrival))
            && Visited(v, |s.clients|, arrival).posted == v.posted + RepliesOf(s, Handle(f))
  {
    HandleReacts(s, f);
    StillRunning(s);
    hide StateInv, Respond;
  }

  // A server that has a message to handle has not taken all shutdowns.
  lemma StillRunning(s: State)
    requires StateInv(s) && !s.pc.Stopped?
    ensures s.shutdowns < |s.clients|
  {
    hide Inv;
  }

  lemma WriteAlike(s: State, i: nat, x: nat, v: Served)
    requires StateInv(s) && Enabled(s, WriteByte(i, x)) && Alike(s, v)
    ensures Alike(Apply(s, WriteByte(i, x)), ServedAll(v, |s.clients|, HappeningOf(s, WriteByte(i, x))))
    ensures ServedAll(v, |s.clients|, HappeningOf(s, WriteByte(i, x))).posted == v.posted
  {
    hide StateInv, Alike;
    StepKeepsInv(s, WriteByte(i, x));
    UnbrokenClient(Apply(s, WriteByte(i, x)), i);
    OpenMeansRunning(s, i);
    WriteHappens(s, i, x, v);
  }

  lemma WriteHappens(s: State, i: nat, x: nat, v: Served)
    requires Enabled(s, WriteByte(i, x)) && Alike(s, v) && !s.pc.Stopped?
    requires |Apply(s, WriteByte(i, x)).clients| == |s.clients| && !Apply(s, WriteByte(i, x)).clients[i].phase.Broken?
    ensures Alike(Apply(s, WriteByte(i, x)), ServedAll(v, |s.clients|, HappeningOf(s, WriteByte(i, x))))
    ensures ServedAll(v, |s.clients|, HappeningOf(s, WriteByte(i, x))).posted == v.posted
  {
    ServedOnce(v, |s.clients|, HappeningOf(s, WriteByte(i, x)));
    hide ServedAll;
  }

  lemma ServedOnce(v: Served, n: nat, hs: seq<Happening>)
    requires |hs| <= 1
    ensures ServedAll(v, n, hs) == if hs == [] then v else Happened(v, n, hs[0])
  {
    if hs != [] {
      assert hs[..0] == [];
    }
  }

  lemma QuietAlike(s: State, step: Step, v: Served)
    requires Enabled(s, step) && Alike(s, v) && !step.Handle? && !step.WriteByte?
    ensures Alike(Apply(s, step), ServedAll(v, |s.clients|, HappeningOf(s, step)))
    ensures ServedAll(v, |s.clients|, HappeningOf(s, step)).posted == v.posted
    ensures HappeningOf(s, step) != [] ==> HappeningOf(s, step)[0] == Visit(None)
  {
    ServedOnce(v, |s.clients|, HappeningOf(s, step));
    hide ServedAll, ValidAccess, Received, Started, OpFits, Polled;
  }

  lemma StepAlike(s: State, step: Step, v: Served)
    requires StateInv(s) && Enabled(s, step) && Alike(s, v)
    ensures var hs := HappeningOf(s, step);
            && (hs != [] && hs[0].Visit? ==> Manageable(v.store, v.at, hs[0].arrival))
            && Alike(Apply(s, step), ServedAll(v, |s.clients|, hs))
            && ServedAll(v, |s.clients|, hs).posted == v.posted + RepliesOf(s, step)
  {
    hide StateInv, Apply, Respond, Enabled, Alike, ServedAll;
    match step {
      case Handle(f) =>
        ServedOnce(v, |s.clients|, HappeningOf(s, step));
        HandleAlike(s, f, v);
      case WriteByte(i, x) => WriteAlike(s, i, x, v);
      case _ => QuietAlike(s, step, v);
    }
  }

  lemma ServedMore(v: Served, n: nat, hs: seq<Happening>, more: seq<Happening>)
    requires |more| <= 1
    ensures ServedAll(v, n, hs + more) == ServedAll(ServedAll(v, n, hs), n, more)
    ensures AllManageable(v, n, hs)
            && (more != [] && more[0].Visit? ==>
                  Manageable(ServedAll(v, n, hs).store, ServedAll(v, n, hs).at, more[0].arrival))
            ==> AllManageable(v, n, hs + more)
  {
    if more == [] {
      assert hs + more == hs;
    } else {
      assert (hs + more)[..|hs|] == hs;
      assert more[..0] == [];
    }
  }

  // The server program before it has done anything.
  const FRESH_SERVER := Served(Store(map[], map[], map[]), [], 0, 0, false)

  // In every run everything the server meets is manageable for the program, and
  // the program ends up with the same memory, count, turn and replies.
  lemma {:induction false} RunsAlike(s0: State, steps: seq<Step>)
    requires Init(s0) && ValidRun(s0, steps)
    ensures |Execute(s0, steps).clients| == |s0.clients|
    ensures AllManageable(FRESH_SERVER, |s0.clients|, Happenings(s0, steps))
    ensures Alike(Execute(s0, steps), ServedAll(FRESH_SERVER, |s0.clients|, Happenings(s0, steps)))
    ensures ServedAll(FRESH_SERVER, |s0.clients|, Happenings(s0, steps)).posted == Replies(s0, steps)
    decreases |steps|
  {
    if steps != [] {
      var before, step := steps[..|steps| - 1], steps[|steps| - 1];
      var s := Execute(s0, before);
      RunsAlike(s0, before);
      InitInv(s0);
      RunKeepsInv(s0, before);
      hide StateInv, Alike, Apply, Enabled, Init, AllManageable, ServedAll, Manageable, HappeningOf, RepliesOf;
      var v := ServedAll(FRESH_SERVER, |s0.clients|, Happenings(s0, before));
      StepAlike(s, step, v);
      SameNumber(s, step);
      ServedMore(FRESH_SERVER, |s0.clients|, Happenings(s0, before), HappeningOf(s, step));
    }
  }

  // The program on what any run brings: it stops if the run's server has
  // stopped, has sent what it has sent, and between visits has its memory.
  method Serve(n: nat, happenings: seq<Happening>, ghost s0: State, ghost steps: seq<Step>)
    returns (server: Server, stopped: bool)
    requires Init(s0) && ValidRun(s0, steps) && n == |s0.clients| && happenings == Happenings(s0, steps)
    ensures fresh(server) && fresh(server.database) && server.Valid()
    ensures var s := Execute(s0, steps);
            && (stopped <==> s.pc.Stopped?) && server.posted == Replies(s0, steps)
            && server.numShutDown == s.shutdowns
            && (s.pc.Polling? || s.pc.Stopped? ==> server.StoreNow() == s.store)
  {
    server := new Server(n);
    RunsAlike(s0, steps);
    var at: nat;
    stopped, at := server.Run(happenings);
  }
}
