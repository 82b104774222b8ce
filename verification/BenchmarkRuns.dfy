// Both sides of the bandwidth test at once. Each side has one completion queue
// shared by its sends and its receives and only counts what it takes from it.
module BenchmarkRuns {
  import opened Benchmark
  import opened Credits

  datatype Kind = SendDone | ReceiveDone

  // One side: its program and place in it, what it has posted, what the adapter
  // has completed, what it has taken from its completion queue, the receives the
  // adapter has and no message has used up, and the number it believes in.
  datatype Side = Side(
    prog: seq<Instr>, pc: nat, waited: nat,
    posted: nat, controls: nat, sent: nat, received: nat,
    cq: seq<Kind>, sendsTaken: nat, receivesTaken: nat, free: int, routs: int)

  datatype System = System(client: Side, server: Side, rxDepth: nat)

  // What happens on one side: its program posts or leaves a finished wait, it
  // takes the oldest completion, the adapter completes one of its sends, or
  // the adapter delivers the other side's next control message.
  datatype Act = Advance | Take | Complete | Deliver

  datatype Step = Step(onClient: bool, act: Act)

  predicate CanAct(me: Side, other: Side, act: Act) {
    match act
    case Advance => me.pc < |me.prog| && (me.prog[me.pc].Wait? ==> me.waited == me.prog[me.pc].n)
    case Take => me.pc < |me.prog| && me.prog[me.pc].Wait? && me.waited < me.prog[me.pc].n && me.cq != []
    case Complete => me.sent < me.posted
    case Deliver => me.received < other.controls && me.free > 0
  }

  function Acted(me: Side, act: Act, rxDepth: nat, other: Side): Side
    requires CanAct(me, other, act)
  {
    match act
    case Advance =>
      (match me.prog[me.pc]
       case PostWrite => me.(pc := me.pc + 1, posted := me.posted + 1)
       case PostControl => me.(pc := me.pc + 1, posted := me.posted + 1, controls := me.controls + 1)
       case Wait(_) => me.(pc := me.pc + 1, waited := 0))
    case Take =>
      (match me.cq[0]
       case SendDone => me.(cq := me.cq[1..], waited := me.waited + 1, sendsTaken := me.sendsTaken + 1)
       case ReceiveDone =>
         me.(cq := me.cq[1..], waited := me.waited + 1, receivesTaken := me.receivesTaken + 1,
             routs := AfterPoll(me.routs, rxDepth, BENCHMARK_REFILL_THRESHOLD),
             free := me.free + Refill(me.routs - 1, rxDepth, BENCHMARK_REFILL_THRESHOLD)))
    case Complete => me.(sent := me.sent + 1, cq := me.cq + [SendDone])
    case Deliver => me.(received := me.received + 1, cq := me.cq + [ReceiveDone], free := me.free - 1)
  }

  predicate Enabled(s: System, step: Step) {
    if step.onClient then CanAct(s.client, s.server, step.act) else CanAct(s.server, s.client, step.act)
  }

  function Apply(s: System, step: Step): System
    requires Enabled(s, step)
  {
    if step.onClient then s.(client := Acted(s.client, step.act, s.rxDepth, s.server))
    else s.(server := Acted(s.server, step.act, s.rxDepth, s.client))
  }

  predicate ValidRun(s: System, steps: seq<Step>)
    decreases |steps|, 0
  {
    steps == [] ||
    (var before := steps[..|steps| - 1];
     ValidRun(s, before) && Enabled(Execute(s, before), steps[|steps| - 1]))
  }

  function Execute(s: System, steps: seq<Step>): System
    requires ValidRun(s, steps)
    decreases |steps|, 1
  {
    if steps == [] then s else Apply(Execute(s, steps[..|steps| - 1]), steps[|steps| - 1])
  }

  function Start(prog: seq<Instr>, rxDepth: nat): Side {
    Side(prog, 0, 0, 0, 0, 0, 0, [], 0, 0, rxDepth, rxDepth)
  }

  // The parameters of a run, as the command line and the constants give them.
  datatype Plan = Plan(warmup: nat, trials: nat, iters: nat, txDepth: nat, rxDepth: nat)

  predicate Valid(p: Plan) {
    p.txDepth >= 1 && p.rxDepth >= 1
  }

  function Init(p: Plan): System
    requires Valid(p)
  {
    System(Start(RunClient(p.warmup, p.trials, p.iters, p.txDepth), p.rxDepth),
           Start(RunServer(p.warmup, p.trials, p.iters), p.rxDepth), p.rxDepth)
  }

  function Rounds(p: Plan): nat {
    p.warmup + p.trials + p.iters
  }

  ghost predicate Reachable(p: Plan, s: System)
    requires Valid(p)
  {
    exists steps :: ValidRun(Init(p), steps) && Execute(Init(p), steps) == s
  }

  // ----- what every step keeps ------------------------------------------------------

  // The accounts of one side agree with its place in the program and with what
  // is waiting in its completion queue.
  predicate SideOk(me: Side, b: Budget, rxDepth: nat) {
    && me.pc <= |me.prog| && b == Spent(NOTHING, me.prog[..me.pc])
    && me.posted == b.posted && me.controls == b.controls
    && me.sendsTaken + me.receivesTaken == b.consumed + me.waited
    && (me.waited > 0 ==> me.pc < |me.prog| && me.prog[me.pc].Wait? && me.waited <= me.prog[me.pc].n)
    && me.sent <= me.posted
    && multiset(me.cq)[SendDone] == me.sent - me.sendsTaken
    && multiset(me.cq)[ReceiveDone] == me.received - me.receivesTaken
    && me.routs == me.free + (me.received - me.receivesTaken) && 1 <= me.routs <= rxDepth
  }

  // The rounds known to be over are answered, at most one more is open, and
  // all other completions consumed were those of sends.
  predicate ClientOk(c: Side, b: Budget) {
    && b.rounds <= c.receivesTaken && c.controls <= b.rounds + 1
    && b.consumed <= c.sendsTaken + b.rounds
  }

  predicate CrossOk(c: Side, v: Side) {
    && c.received <= v.controls <= v.receivesTaken
    && v.received <= c.controls
  }

  predicate Inv(p: Plan, s: System)
    requires Valid(p)
  {
    && s.rxDepth == p.rxDepth
    && s.client.prog == RunClient(p.warmup, p.trials, p.iters, p.txDepth)
    && s.server.prog == RunServer(p.warmup, p.trials, p.iters)
    && s.client.pc <= |s.client.prog| && s.server.pc <= |s.server.prog|
    && SideOk(s.client, Spent(NOTHING, s.client.prog[..s.client.pc]), s.rxDepth)
    && SideOk(s.server, Spent(NOTHING, s.server.prog[..s.server.pc]), s.rxDepth)
    && ClientOk(s.client, Spent(NOTHING, s.client.prog[..s.client.pc]))
    && CrossOk(s.client, s.server)
  }

  // What is taken has completed before, and what has completed is taken or
  // waits in the queue.
  lemma QueueCounts(me: Side, b: Budget, rxDepth: nat)
    requires SideOk(me, b, rxDepth)
    ensures me.sendsTaken <= me.sent && me.receivesTaken <= me.received
    ensures |me.cq| == (me.sent - me.sendsTaken) + (me.received - me.receivesTaken)
  {
    CountBoth(me.cq);
  }

  lemma {:induction false} CountBoth(cq: seq<Kind>)
    ensures |cq| == multiset(cq)[SendDone] + multiset(cq)[ReceiveDone]
  {
    if cq == [] {
    } else {
      CountBoth(cq[1..]);
      TakeCounts(cq);
      assert cq[0] == SendDone || cq[0] == ReceiveDone;
    }
  }

  lemma TakeCounts(cq: seq<Kind>)
    requires cq != []
    ensures forall k :: multiset(cq)[k] == multiset(cq[1..])[k] + (if k == cq[0] then 1 else 0)
  {
    assert cq == [cq[0]] + cq[1..];
  }

  // Whatever a side does keeps its own accounts.
  lemma SideAdvances(me: Side, b: Budget, rxDepth: nat, other: Side, me': Side, b': Budget)
    requires SideOk(me, b, rxDepth) && CanAct(me, other, Advance) && me' == Acted(me, Advance, rxDepth, other)
    requires b' == Tick(b, me.prog[me.pc])
    ensures SideOk(me', b', rxDepth) && me'.prog == me.prog
    ensures me'.pc <= |me'.prog| && b' == Spent(NOTHING, me'.prog[..me'.pc])
  {
    assert me.prog[..me.pc + 1][..me.pc] == me.prog[..me.pc];
    assert Spent(NOTHING, me.prog[..me.pc + 1]) == b';
    hide Spent;
  }

  lemma SideCompletes(me: Side, b: Budget, act: Act, rxDepth: nat, other: Side, me': Side)
    requires SideOk(me, b, rxDepth) && CanAct(me, other, act) && me' == Acted(me, act, rxDepth, other)
    requires rxDepth >= 1 && !act.Advance?
    ensures SideOk(me', b, rxDepth) && me'.prog == me.prog && me'.pc == me.pc <= |me'.prog|
  {
    hide Spent;
    if act.Take? {
      TakeCounts(me.cq);
    }
  }

  // A plan allows each of its instructions where it stands.
  lemma {:induction false} ClientMayAt(prog: seq<Instr>, pc: nat, txDepth: nat)
    requires ClientPlan(NOTHING, prog, txDepth) && pc < |prog|
    ensures ClientMay(Spent(NOTHING, prog[..pc]), prog[pc], txDepth)
  {
    if pc < |prog| - 1 {
      ClientMayAt(prog[..|prog| - 1], pc, txDepth);
      assert prog[..|prog| - 1][..pc] == prog[..pc];
    }
  }

  lemma {:induction false} ServerMayAt(prog: seq<Instr>, pc: nat, rounds: nat)
    requires ServerPlan(NOTHING, prog, rounds) && pc < |prog|
    ensures ServerMay(Spent(NOTHING, prog[..pc]), prog[pc], rounds)
  {
    if pc < |prog| - 1 {
      ServerMayAt(prog[..|prog| - 1], pc, rounds);
      assert prog[..|prog| - 1][..pc] == prog[..pc];
    }
  }

  lemma {:induction false} SpentGrows(prog: seq<Instr>, pc: nat)
    requires pc <= |prog|
    ensures Spent(NOTHING, prog[..pc]).posted <= Spent(NOTHING, prog).posted
    ensures Spent(NOTHING, prog[..pc]).controls <= Spent(NOTHING, prog).controls
    ensures Spent(NOTHING, prog[..pc]).consumed <= Spent(NOTHING, prog).consumed
  {
    if pc < |prog| {
      SpentGrows(prog[..|prog| - 1], pc);
      assert prog[..|prog| - 1][..pc] == prog[..pc];
    } else {
      assert prog[..pc] == prog;
    }
  }

  // When a client posts, every message it sent before has been answered.
  lemma ClientPosts(c: Side, v: Side, b: Budget, rxDepth: nat)
    requires SideOk(c, b, rxDepth) && ClientOk(c, b) && CrossOk(c, v)
    requires v.receivesTaken <= v.received && c.receivesTaken <= c.received && b.rounds == b.controls
    ensures c.receivesTaken == c.received == v.controls == v.receivesTaken == v.received == c.controls
  {
  }

  lemma ClientAdvances(c: Side, v: Side, b: Budget, txDepth: nat, rxDepth: nat, c': Side, b': Budget)
    requires SideOk(c, b, rxDepth) && ClientOk(c, b) && CrossOk(c, v) && CanAct(c, v, Advance)
    requires v.receivesTaken <= v.received && c.receivesTaken <= c.received && c.sendsTaken <= c.sent
    requires ClientMay(b, c.prog[c.pc], txDepth)
    requires c' == Acted(c, Advance, rxDepth, v) && b' == Tick(b, c.prog[c.pc])
    ensures ClientOk(c', b') && CrossOk(c', v)
  {
    hide Spent;
    if !c.prog[c.pc].Wait? {
      ClientPosts(c, v, b, rxDepth);
    }
  }

  lemma ClientStep(p: Plan, s: System, act: Act)
    requires Valid(p) && Inv(p, s) && Enabled(s, Step(true, act))
    ensures Inv(p, Apply(s, Step(true, act)))
  {
    hide Spent, SideOk, ClientOk, CrossOk, Acted, Tick, RunClient, RunServer, ClientMay, ClientPlan;
    var c, v := s.client, s.server;
    var b := Spent(NOTHING, c.prog[..c.pc]);
    var s' := Apply(s, Step(true, act));
    QueueCounts(c, b, s.rxDepth);
    QueueCounts(v, Spent(NOTHING, v.prog[..v.pc]), s.rxDepth);
    if act.Advance? {
      assert ClientMay(b, c.prog[c.pc], p.txDepth) by {
        RunClientPlan(p.warmup, p.trials, p.iters, p.txDepth);
        ClientMayAt(c.prog, c.pc, p.txDepth);
      }
      SideAdvances(c, b, s.rxDepth, v, s'.client, Tick(b, c.prog[c.pc]));
      ClientAdvances(c, v, b, p.txDepth, s.rxDepth, s'.client, Tick(b, c.prog[c.pc]));
    } else {
      SideCompletes(c, b, act, s.rxDepth, v, s'.client);
      ClientCompletes(c, v, b, act, s.rxDepth, s'.client);
    }
  }

  lemma ClientCompletes(c: Side, v: Side, b: Budget, act: Act, rxDepth: nat, c': Side)
    requires SideOk(c, b, rxDepth) && ClientOk(c, b) && CrossOk(c, v) && CanAct(c, v, act) && !act.Advance?
    requires c' == Acted(c, act, rxDepth, v)
    ensures ClientOk(c', b) && CrossOk(c', v)
  {
    hide Spent;
  }

  lemma ServerAdvances(v: Side, c: Side, b: Budget, rounds: nat, rxDepth: nat, v': Side)
    requires SideOk(v, b, rxDepth) && CrossOk(c, v) && CanAct(v, c, Advance)
    requires ServerMay(b, v.prog[v.pc], rounds)
    requires v' == Acted(v, Advance, rxDepth, c)
    ensures CrossOk(c, v') && v'.pc <= |v'.prog|
  {
    QueueCounts(v, b, rxDepth);
    hide Spent;
  }

  lemma ServerCompletes(v: Side, c: Side, b: Budget, act: Act, rxDepth: nat, v': Side)
    requires SideOk(v, b, rxDepth) && CrossOk(c, v) && CanAct(v, c, act) && !act.Advance?
    requires v' == Acted(v, act, rxDepth, c)
    ensures CrossOk(c, v')
  {
  }

  lemma ServerStep(p: Plan, s: System, act: Act)
    requires Valid(p) && Inv(p, s) && Enabled(s, Step(false, act))
    ensures Inv(p, Apply(s, Step(false, act)))
  {
    hide Spent, SideOk, ClientOk, CrossOk, Acted, Tick, RunClient, RunServer, ServerMay, ServerPlan;
    var c, v := s.client, s.server;
    var b := Spent(NOTHING, v.prog[..v.pc]);
    var s' := Apply(s, Step(false, act));
    if act.Advance? {
      assert ServerMay(b, v.prog[v.pc], Rounds(p)) by {
        RunServerPlan(p.warmup, p.trials, p.iters);
        ServerMayAt(v.prog, v.pc, Rounds(p));
      }
      SideAdvances(v, b, s.rxDepth, c, s'.server, Tick(b, v.prog[v.pc]));
      ServerAdvances(v, c, b, Rounds(p), s.rxDepth, s'.server);
    } else {
      SideCompletes(v, b, act, s.rxDepth, c, s'.server);
      ServerCompletes(v, c, b, act, s.rxDepth, s'.server);
    }
  }

  lemma {:induction false} RunKeepsInv(p: Plan, steps: seq<Step>)
    requires Valid(p) && ValidRun(Init(p), steps)
    ensures Inv(p, Execute(Init(p), steps))
    decreases |steps|
  {
    if steps == [] {
    } else {
      hide Inv, Init, CanAct, Acted;
      var before, step := steps[..|steps| - 1], steps[|steps| - 1];
      RunKeepsInv(p, before);
      if step.onClient {
        ClientStep(p, Execute(Init(p), before), step.act);
      } else {
        ServerStep(p, Execute(Init(p), before), step.act);
      }
    }
  }

  lemma ReachableInv(p: Plan, s: System)
    requires Valid(p) && Reachable(p, s)
    ensures Inv(p, s)
  {
    var steps :| ValidRun(Init(p), steps) && Execute(Init(p), steps) == s;
    RunKeepsInv(p, steps);
  }
}
