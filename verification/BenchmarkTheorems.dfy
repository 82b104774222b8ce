// What holds in every reachable state of the bandwidth test, for all iteration
// counts, queue depths, trial counts and completion orders.
module BenchmarkTheorems {
  import opened Benchmark
  import opened BenchmarkRuns

  // ----- lockstep -------------------------------------------------------------------

  // What both sides know of each other at any moment.
  lemma Counts(p: Plan, s: System)
    requires Valid(p) && Reachable(p, s)
    ensures Inv(p, s)
    ensures s.client.receivesTaken <= s.client.received <= s.server.controls
         <= s.server.receivesTaken <= s.server.received <= s.client.controls <= s.client.receivesTaken + 1
    ensures s.client.sendsTaken <= s.client.sent <= s.client.posted
    ensures s.server.sendsTaken <= s.server.sent <= s.server.posted
  {
    ReachableInv(p, s);
    QueueCounts(s.client, Spent(NOTHING, s.client.prog[..s.client.pc]), s.rxDepth);
    QueueCounts(s.server, Spent(NOTHING, s.server.prog[..s.server.pc]), s.rxDepth);
  }

  // The client starts nothing new before it has consumed the reply to every
  // message it sent.
  lemma ClientLockstep(p: Plan, s: System)
    requires Valid(p) && Reachable(p, s)
    requires Enabled(s, Step(true, Advance)) && !s.client.prog[s.client.pc].Wait?
    ensures s.client.receivesTaken == s.client.controls == s.server.controls
    ensures ClientMay(Spent(NOTHING, s.client.prog[..s.client.pc]), s.client.prog[s.client.pc], p.txDepth)
  {
    Counts(p, s);
    RunClientPlan(p.warmup, p.trials, p.iters, p.txDepth);
    ClientMayAt(s.client.prog, s.client.pc, p.txDepth);
    hide Spent, ClientPlan, RunClient, RunServer;
  }

  // The server posts reply number j exactly when it has consumed message number
  // j and the completions of all its earlier replies.
  lemma ServerLockstep(p: Plan, s: System)
    requires Valid(p) && Reachable(p, s)
    requires Enabled(s, Step(false, Advance)) && !s.server.prog[s.server.pc].Wait?
    ensures s.server.receivesTaken == s.server.controls + 1 == s.client.controls
    ensures s.server.sendsTaken == s.server.posted
  {
    hide Spent, SideOk, ClientOk, CrossOk, ServerMay, ServerPlan, RunClient, RunServer, Reachable;
    Counts(p, s);
    RunServerPlan(p.warmup, p.trials, p.iters);
    ServerMayAt(s.server.prog, s.server.pc, Rounds(p));
    ServerPosts(s.server, s.client, Spent(NOTHING, s.server.prog[..s.server.pc]), Rounds(p), s.rxDepth);
  }

  lemma ServerPosts(v: Side, c: Side, b: Budget, rounds: nat, rxDepth: nat)
    requires SideOk(v, b, rxDepth) && CanAct(v, c, Advance) && !v.prog[v.pc].Wait?
    requires ServerMay(b, v.prog[v.pc], rounds)
    requires v.receivesTaken <= c.controls <= v.controls + 1 && v.sendsTaken <= v.posted
    ensures v.receivesTaken == v.controls + 1 == c.controls && v.sendsTaken == v.posted
  {
    hide Spent;
  }

  // Neither side ever gets ahead of the other, although neither looks at which
  // kind of completion it takes.
  lemma Lockstep(p: Plan, s: System)
    requires Valid(p) && Reachable(p, s)
    ensures s.server.controls <= s.server.receivesTaken <= s.client.controls <= s.client.receivesTaken + 1
    ensures Enabled(s, Step(true, Advance)) && !s.client.prog[s.client.pc].Wait? ==>
              s.client.receivesTaken == s.client.controls
    ensures Enabled(s, Step(false, Advance)) && !s.server.prog[s.server.pc].Wait? ==>
              s.server.receivesTaken == s.server.controls + 1 && s.server.sendsTaken == s.server.posted
  {
    Counts(p, s);
    if Enabled(s, Step(true, Advance)) && !s.client.prog[s.client.pc].Wait? {
      ClientLockstep(p, s);
    }
    if Enabled(s, Step(false, Advance)) && !s.server.prog[s.server.pc].Wait? {
      ServerLockstep(p, s);
    }
  }

  // What either side believes it has posted and not taken is what the adapter
  // has, so a control message on its way always finds a posted receive.
  lemma ReceivesReady(p: Plan, s: System)
    requires Valid(p) && Reachable(p, s)
    ensures s.client.routs == s.client.free + multiset(s.client.cq)[ReceiveDone]
    ensures s.server.routs == s.server.free + multiset(s.server.cq)[ReceiveDone]
    ensures 1 <= s.client.routs <= p.rxDepth && 1 <= s.server.routs <= p.rxDepth
    ensures s.client.received < s.server.controls ==> CanAct(s.client, s.server, Deliver)
    ensures s.server.received < s.client.controls ==> CanAct(s.server, s.client, Deliver)
  {
    Counts(p, s);
    hide Spent;
  }

  // ----- draining ------------------------------------------------------------------------

  // At a point of its program where the accounts balance, the client has nothing
  // outstanding: all is completed and taken, every message is answered, its queue
  // is empty and no reply is on its way.
  lemma Drained(p: Plan, s: System)
    requires Valid(p) && Reachable(p, s) && s.client.waited == 0
    requires s.client.pc <= |s.client.prog| && Balanced(Spent(NOTHING, s.client.prog[..s.client.pc]))
    ensures s.client.sendsTaken == s.client.sent == s.client.posted
    ensures s.client.receivesTaken == s.client.received == s.client.controls == s.server.controls
    ensures s.client.cq == []
  {
    Counts(p, s);
    QueueCounts(s.client, Spent(NOTHING, s.client.prog[..s.client.pc]), s.rxDepth);
    hide Spent;
  }

  // The client's program up to its t-th trial.
  function BeforeTrial(p: Plan, t: nat): seq<Instr>
    requires Valid(p)
  {
    LatencyClient(p.warmup) + TrialsClient(t, p.iters, p.txDepth)
  }

  lemma BeforeTrialSpent(p: Plan, t: nat)
    requires Valid(p)
    ensures Spent(NOTHING, BeforeTrial(p, t)) == Later(NOTHING, p.warmup + t * (p.iters + 1), p.warmup + t)
  {
    hide Spent, ClientPlan, LatencyClient, TrialsClient, Balanced;
    BalancedAtFirst();
    StaysBalanced(NOTHING, p.warmup, p.warmup);
    LatencyClientPlan(NOTHING, p.warmup, p.txDepth);
    TrialsPlan(Spent(NOTHING, LatencyClient(p.warmup)), t, p.iters, p.txDepth);
    SpentConcat(NOTHING, LatencyClient(p.warmup), TrialsClient(t, p.iters, p.txDepth));
  }

  // Between trials nothing is outstanding, and each trial has taken exactly
  // iters + 2 completions.
  lemma TrialsDrain(p: Plan, s: System, t: nat)
    requires Valid(p) && Reachable(p, s) && t <= p.trials && s.client.waited == 0
    requires s.client.pc <= |s.client.prog| && s.client.prog[..s.client.pc] == BeforeTrial(p, t)
    ensures s.client.sendsTaken == s.client.posted == p.warmup + t * (p.iters + 1)
    ensures s.client.receivesTaken == s.client.controls == s.server.controls == p.warmup + t
    ensures s.client.sendsTaken + s.client.receivesTaken == 2 * p.warmup + t * (p.iters + 2)
    ensures s.client.cq == []
  {
    hide Spent, BeforeTrial, RunClient, RunServer, Reachable, ClientOk, CrossOk;
    BeforeTrialSpent(p, t);
    Drained(p, s);
    Counts(p, s);
    assert t * (p.iters + 1) + t == t * (p.iters + 2);
  }

  // ----- every run finishes --------------------------------------------------------------

  predicate Finished(s: System) {
    s.client.pc == |s.client.prog| && s.server.pc == |s.server.prog|
  }

  predicate Stuck(me: Side, other: Side) {
    !CanAct(me, other, Advance) && !CanAct(me, other, Take)
    && !CanAct(me, other, Complete) && !CanAct(me, other, Deliver)
  }

  // A side that can do nothing has everything completed and delivered; if it
  // has not finished it waits, with an empty queue, for more than there is.
  lemma StuckMeans(me: Side, other: Side, b: Budget, rxDepth: nat)
    requires SideOk(me, b, rxDepth) && Stuck(me, other)
    requires me.received <= other.controls <= me.receivesTaken + 1
    ensures me.sent == me.posted && me.received == other.controls
    ensures me.pc < |me.prog| ==>
              && me.prog[me.pc].Wait? && b.consumed + me.prog[me.pc].n > me.posted + other.controls
    ensures me.pc == |me.prog| ==> me.waited == 0
  {
    QueueCounts(me, b, rxDepth);
    hide Spent;
  }

  lemma ClientStuck(p: Plan, s: System)
    requires Valid(p) && Reachable(p, s) && Stuck(s.client, s.server)
    ensures s.client.pc < |s.client.prog| ==> s.server.controls < s.client.controls
    ensures s.client.pc == |s.client.prog| ==> s.client.controls == s.server.controls == Rounds(p)
  {
    Counts(p, s);
    var c := s.client;
    StuckMeans(c, s.server, Spent(NOTHING, c.prog[..c.pc]), s.rxDepth);
    RunClientPlan(p.warmup, p.trials, p.iters, p.txDepth);
    if c.pc < |c.prog| {
      ClientMayAt(c.prog, c.pc, p.txDepth);
    } else {
      assert c.prog[..c.pc] == c.prog;
    }
    hide Spent, ClientPlan;
  }

  lemma ServerStuck(p: Plan, s: System)
    requires Valid(p) && Reachable(p, s) && Stuck(s.server, s.client)
    ensures s.server.pc < |s.server.prog| ==> s.client.controls <= s.server.controls < Rounds(p)
    ensures s.server.pc == |s.server.prog| ==> s.server.controls == Rounds(p)
  {
    hide Spent, ServerPlan, RunClient, RunServer, Reachable, SideOk, ClientOk, CrossOk;
    Counts(p, s);
    var v := s.server;
    SideFacts(v, Spent(NOTHING, v.prog[..v.pc]), s.rxDepth);
    StuckMeans(v, s.client, Spent(NOTHING, v.prog[..v.pc]), s.rxDepth);
    RunServerPlan(p.warmup, p.trials, p.iters);
    SpentGrows(v.prog, v.pc);
    if v.pc < |v.prog| {
      ServerMayAt(v.prog, v.pc, Rounds(p));
    } else {
      assert v.prog[..v.pc] == v.prog;
    }
  }

  lemma SideFacts(me: Side, b: Budget, rxDepth: nat)
    requires SideOk(me, b, rxDepth)
    ensures me.pc <= |me.prog| && me.posted == b.posted && me.controls == b.controls
    ensures me.sendsTaken + me.receivesTaken == b.consumed + me.waited
  {
  }

  // As long as either side has something left to do, some step is possible.
  lemma NoDeadlock(p: Plan, s: System)
    requires Valid(p) && Reachable(p, s) && !Finished(s)
    ensures exists step :: Enabled(s, step)
  {
    if Stuck(s.client, s.server) && Stuck(s.server, s.client) {
      Counts(p, s);
      ClientStuck(p, s);
      ServerStuck(p, s);
      RunClientPlan(p.warmup, p.trials, p.iters, p.txDepth);
      SpentGrows(s.client.prog, s.client.pc);
      assert false;
    } else if !Stuck(s.client, s.server) {
      var act :| CanAct(s.client, s.server, act);
      assert Enabled(s, Step(true, act));
    } else {
      var act :| CanAct(s.server, s.client, act);
      assert Enabled(s, Step(false, act));
    }
  }

  // The steps one side has left: instructions, completions to take, sends to
  // complete, and messages to receive.
  function SideLeft(me: Side, other: Side): int {
    (|me.prog| - me.pc)
    + (Spent(NOTHING, me.prog).consumed - me.sendsTaken - me.receivesTaken)
    + (Spent(NOTHING, me.prog).posted - me.sent)
    + (Spent(NOTHING, other.prog).controls - me.received)
  }

  function WorkLeft(s: System): int {
    SideLeft(s.client, s.server) + SideLeft(s.server, s.client)
  }

  lemma SideLeftBound(me: Side, other: Side, b: Budget, rxDepth: nat)
    requires SideOk(me, b, rxDepth)
    requires me.received <= other.controls <= Spent(NOTHING, other.prog).controls
    ensures SideLeft(me, other) >= 0
  {
    SpentGrows(me.prog, me.pc);
    if me.pc < |me.prog| {
      SpentGrows(me.prog, me.pc + 1);
      assert me.prog[..me.pc + 1][..me.pc] == me.prog[..me.pc];
    }
  }

  // Each step uses up one unit of work, whichever it is.
  lemma StepUsesWork(s: System, step: Step)
    requires Enabled(s, step)
    ensures WorkLeft(Apply(s, step)) == WorkLeft(s) - 1
  {
    hide Spent;
  }

  lemma {:induction false} RunUsesWork(s: System, steps: seq<Step>)
    requires ValidRun(s, steps)
    ensures WorkLeft(Execute(s, steps)) == WorkLeft(s) - |steps|
    decreases |steps|
  {
    if steps == [] {
    } else {
      RunUsesWork(s, steps[..|steps| - 1]);
      StepUsesWork(Execute(s, steps[..|steps| - 1]), steps[|steps| - 1]);
    }
  }

  lemma WorkIsLeft(p: Plan, s: System)
    requires Valid(p) && Reachable(p, s)
    ensures WorkLeft(s) >= 0
  {
    Counts(p, s);
    SpentGrows(s.client.prog, s.client.pc);
    SpentGrows(s.server.prog, s.server.pc);
    hide SideLeft;
    SideLeftBound(s.client, s.server, Spent(NOTHING, s.client.prog[..s.client.pc]), s.rxDepth);
    SideLeftBound(s.server, s.client, Spent(NOTHING, s.server.prog[..s.server.pc]), s.rxDepth);
  }

  // When both sides have finished every round is over, both queues are drained
  // and no work is left.
  lemma FinishedDrains(p: Plan, s: System)
    requires Valid(p) && Reachable(p, s) && Finished(s)
    ensures s.client.cq == [] && s.server.cq == []
    ensures s.client.receivesTaken == s.client.controls == s.server.controls == s.server.receivesTaken == Rounds(p)
    ensures s.client.sendsTaken == s.client.posted && s.server.sendsTaken == s.server.posted
    ensures WorkLeft(s) == 0
  {
    hide Spent, SideOk, ClientOk, CrossOk, ClientPlan, ServerPlan, RunClient, RunServer, Reachable;
    Counts(p, s);
    var c, v := s.client, s.server;
    assert c.prog[..c.pc] == c.prog && v.prog[..v.pc] == v.prog;
    RunClientPlan(p.warmup, p.trials, p.iters, p.txDepth);
    RunServerPlan(p.warmup, p.trials, p.iters);
    QueueCounts(c, Spent(NOTHING, c.prog), s.rxDepth);
    QueueCounts(v, Spent(NOTHING, v.prog), s.rxDepth);
    FinishedCounts(c, v, Spent(NOTHING, c.prog), Spent(NOTHING, v.prog), s.rxDepth);
  }

  lemma FinishedCounts(c: Side, v: Side, b: Budget, d: Budget, rxDepth: nat)
    requires SideOk(c, b, rxDepth) && SideOk(v, d, rxDepth) && c.pc == |c.prog| && v.pc == |v.prog|
    requires Balanced(b) && Balanced(d) && b.controls == d.controls
    requires c.receivesTaken <= c.received <= v.controls <= v.receivesTaken <= v.received <= c.controls
    requires c.sendsTaken <= c.sent <= c.posted && v.sendsTaken <= v.sent <= v.posted
    ensures c.receivesTaken == c.received == v.controls == v.receivesTaken == v.received == c.controls == b.controls
    ensures c.sendsTaken == c.sent == c.posted == b.posted && v.sendsTaken == v.sent == v.posted == d.posted
  {
    hide Spent;
  }

  // So every run, however it is scheduled, can be continued until both sides
  // have finished; all complete runs take the same number of steps.
  lemma EveryRunFinishes(p: Plan, steps: seq<Step>)
    requires Valid(p) && ValidRun(Init(p), steps)
    ensures |steps| <= WorkLeft(Init(p))
    ensures |steps| == WorkLeft(Init(p)) <==> Finished(Execute(Init(p), steps))
    ensures Finished(Execute(Init(p), steps)) <==> forall step :: !ValidRun(Init(p), steps + [step])
  {
    hide Init, WorkLeft, Enabled, Apply, ValidRun, Execute, Finished;
    var s := Execute(Init(p), steps);
    RunUsesWork(Init(p), steps);
    WorkIsLeft(p, s);
    if Finished(s) {
      FinishedDrains(p, s);
      forall step
        ensures !ValidRun(Init(p), steps + [step])
      {
        if ValidRun(Init(p), steps + [step]) {
          LastStep(Init(p), steps, step);
          StepUsesWork(s, step);
          WorkIsLeft(p, Apply(s, step));
        }
      }
    } else {
      NoDeadlock(p, s);
      var step :| Enabled(s, step);
      Extended(Init(p), steps, step);
      StepUsesWork(s, step);
      WorkIsLeft(p, Apply(s, step));
    }
  }

  lemma Extended(s: System, steps: seq<Step>, step: Step)
    requires ValidRun(s, steps) && Enabled(Execute(s, steps), step)
    ensures ValidRun(s, steps + [step]) && Execute(s, steps + [step]) == Apply(Execute(s, steps), step)
  {
    assert (steps + [step])[..|steps|] == steps;
  }

  lemma LastStep(s: System, steps: seq<Step>, step: Step)
    requires ValidRun(s, steps + [step])
    ensures ValidRun(s, steps) && Enabled(Execute(s, steps), step)
    ensures Execute(s, steps + [step]) == Apply(Execute(s, steps), step)
  {
    assert (steps + [step])[..|steps|] == steps;
  }
}
