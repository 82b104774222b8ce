// The send queue of the bandwidth test's client: how full it gets, at which
// points of the program, and for which parameters it is overfilled.
module BenchmarkQueue {
  import opened Benchmark
  import opened BenchmarkRuns
  import opened BenchmarkTheorems

  // ----- points of the program ---------------------------------------------------------

  // More sends may be unacknowledged here than the queue is deep.
  predicate Overfull(b: Budget, txDepth: nat) {
    b.posted + b.rounds > b.consumed + txDepth
  }

  lemma SpentSnoc(b: Budget, p: seq<Instr>, x: Instr)
    ensures Spent(b, p + [x]) == Tick(Spent(b, p), x)
  {
    assert (p + [x])[..|p|] == p;
  }

  lemma {:induction false} LatencyRoom(b: Budget, iters: nat, txDepth: nat, all: seq<Instr>, pc: nat)
    requires txDepth > 0 && Balanced(b) && all == LatencyClient(iters) && pc <= |all|
    ensures !Overfull(Spent(b, all[..pc]), txDepth)
  {
    if iters == 0 {
      assert all[..pc] == [];
    } else {
      var before := LatencyClient(iters - 1);
      if pc <= |before| {
        assert all[..pc] == before[..pc];
        LatencyRoom(b, iters - 1, txDepth, before, pc);
      } else {
        assert all[..pc] == before + [PostControl] || all[..pc] == before + [PostControl] + [Wait(2)];
        LatencyClientPlan(b, iters - 1, txDepth);
        hide Spent, ClientPlan, LatencyClient;
        RoundRoom(b, before, txDepth);
      }
    }
  }

  // A round trip between balanced points.
  lemma RoundRoom(b: Budget, before: seq<Instr>, txDepth: nat)
    requires txDepth > 0 && Balanced(Spent(b, before))
    ensures !Overfull(Spent(b, before + [PostControl]), txDepth)
    ensures !Overfull(Spent(b, before + [PostControl] + [Wait(2)]), txDepth)
  {
    hide Spent;
    SpentSnoc(b, before, PostControl);
    SpentSnoc(b, before + [PostControl], Wait(2));
  }

  lemma {:induction false} WritesRoom(b: Budget, iters: nat, txDepth: nat, pc: nat, prefix: seq<Instr>)
    requires txDepth > 0 && Balanced(b) && pc <= |Writes(iters, txDepth)| && prefix == Writes(iters, txDepth)[..pc]
    ensures !Overfull(Spent(b, prefix), txDepth)
  {
    var w := Writes(iters, txDepth);
    if pc == |w| {
      assert prefix == w;
      hide Spent, ClientPlan, Writes, NumComplete, DrainsBefore;
      WritesPlan(b, iters, txDepth);
      DrainWhenFull(iters, txDepth);
    } else {
      var before := Writes(iters - 1, txDepth);
      if pc <= |before| {
        assert prefix == before[..pc];
        WritesRoom(b, iters - 1, txDepth, pc, prefix);
      } else {
        assert prefix == before + [Wait(txDepth)];
        hide Spent, ClientPlan, Writes, NumComplete, DrainsBefore;
        WritesPlan(b, iters - 1, txDepth);
        SpentSnoc(b, before, Wait(txDepth));
      }
    }
  }

  // Within a trial only the control message behind the last write overfills it.
  lemma TrialRoom(b: Budget, iters: nat, txDepth: nat, pc: nat)
    requires txDepth > 0 && Balanced(b) && pc <= |TrialClient(iters, txDepth)|
    ensures var b' := Spent(b, TrialClient(iters, txDepth)[..pc]);
            && b'.posted + b'.rounds <= b'.consumed + txDepth + 1
            && (Overfull(b', txDepth) ==>
                  && iters > 0 && iters % txDepth == 0
                  && TrialClient(iters, txDepth)[..pc] == Writes(iters, txDepth) + [PostControl])
  {
    var w, trial := Writes(iters, txDepth), TrialClient(iters, txDepth);
    if pc <= |w| {
      assert trial[..pc] == w[..pc];
      WritesRoom(b, iters, txDepth, pc, w[..pc]);
    } else if pc == |w| + 1 {
      WritesPlan(b, iters, txDepth);
      FullQueueExactly(iters, txDepth);
      SpentSnoc(b, w, PostControl);
      assert trial[..pc] == w + [PostControl];
    } else {
      TrialPlan(b, iters, txDepth);
      assert trial[..pc] == trial;
    }
  }

  // The prefix ends with the control message behind the writes of a trial.
  predicate EndsTrial(prefix: seq<Instr>, trials: nat, iters: nat, txDepth: nat)
    requires txDepth > 0
  {
    exists t :: 0 <= t < trials && prefix == TrialsClient(t, iters, txDepth) + Writes(iters, txDepth) + [PostControl]
  }

  // After this prefix of the trials the queue has room, or is one over behind
  // the end of a trial.
  predicate TrialsHaveRoom(b: Budget, prefix: seq<Instr>, trials: nat, iters: nat, txDepth: nat)
    requires txDepth > 0
  {
    var b' := Spent(b, prefix);
    && b'.posted + b'.rounds <= b'.consumed + txDepth + 1
    && (Overfull(b', txDepth) ==>
          iters > 0 && iters % txDepth == 0 && EndsTrial(prefix, trials, iters, txDepth))
  }

  lemma LastTrialRoom(b: Budget, trials: nat, iters: nat, txDepth: nat, n: nat)
    requires txDepth > 0 && Balanced(b) && trials > 0 && n <= |TrialClient(iters, txDepth)|
    ensures TrialsHaveRoom(b, TrialsClient(trials - 1, iters, txDepth) + TrialClient(iters, txDepth)[..n],
                           trials, iters, txDepth)
  {
    hide Spent, Writes, TrialsClient, TrialClient, ClientPlan;
    var before, piece := TrialsClient(trials - 1, iters, txDepth), TrialClient(iters, txDepth)[..n];
    TrialsPlan(b, trials - 1, iters, txDepth);
    SpentConcat(b, before, piece);
    TrialRoom(Spent(b, before), iters, txDepth, n);
    if piece == Writes(iters, txDepth) + [PostControl] {
      assert before + piece == before + Writes(iters, txDepth) + [PostControl];
    }
  }

  lemma TrialsRoomGrows(b: Budget, prefix: seq<Instr>, trials: nat, iters: nat, txDepth: nat)
    requires txDepth > 0 && TrialsHaveRoom(b, prefix, trials, iters, txDepth)
    ensures TrialsHaveRoom(b, prefix, trials + 1, iters, txDepth)
  {
    hide Spent, Writes, TrialsClient;
  }

  lemma {:induction false} TrialsRoom(b: Budget, trials: nat, iters: nat, txDepth: nat, pc: nat)
    requires txDepth > 0 && Balanced(b) && pc <= |TrialsClient(trials, iters, txDepth)|
    ensures TrialsHaveRoom(b, TrialsClient(trials, iters, txDepth)[..pc], trials, iters, txDepth)
  {
    var all := TrialsClient(trials, iters, txDepth);
    if trials == 0 {
      assert all[..pc] == [];
    } else {
      hide TrialsHaveRoom;
      var before, trial := TrialsClient(trials - 1, iters, txDepth), TrialClient(iters, txDepth);
      if pc <= |before| {
        assert all[..pc] == before[..pc];
        TrialsRoom(b, trials - 1, iters, txDepth, pc);
        TrialsRoomGrows(b, before[..pc], trials - 1, iters, txDepth);
      } else {
        assert all[..pc] == before + trial[..pc - |before|];
        LastTrialRoom(b, trials, iters, txDepth, pc - |before|);
      }
    }
  }

  // The client's program stands right behind the control message that ends a trial.
  predicate AtTrialEnd(p: Plan, prefix: seq<Instr>)
    requires Valid(p)
  {
    exists t :: 0 <= t < p.trials && prefix == BeforeTrial(p, t) + Writes(p.iters, p.txDepth) + [PostControl]
  }

  // After this prefix the queue has room, or is one over behind a trial's end.
  predicate HasRoom(p: Plan, prefix: seq<Instr>)
    requires Valid(p)
  {
    var b := Spent(NOTHING, prefix);
    && b.posted + b.rounds <= b.consumed + p.txDepth + 1
    && (Overfull(b, p.txDepth) ==> p.iters > 0 && p.iters % p.txDepth == 0 && AtTrialEnd(p, prefix))
  }

  lemma WarmupRoom(p: Plan, first: seq<Instr>, n: nat)
    requires Valid(p) && first == LatencyClient(p.warmup) && n <= |first|
    ensures HasRoom(p, first[..n])
  {
    hide LatencyClient, Spent, HasRoom;
    LatencyRoom(NOTHING, p.warmup, p.txDepth, first, n);
    NotOverfull(p, first[..n]);
  }

  lemma NotOverfull(p: Plan, prefix: seq<Instr>)
    requires Valid(p) && !Overfull(Spent(NOTHING, prefix), p.txDepth)
    ensures HasRoom(p, prefix)
  {
    hide Spent;
  }

  lemma ThroughputRoom(p: Plan, n: nat)
    requires Valid(p) && n <= |TrialsClient(p.trials, p.iters, p.txDepth)|
    ensures HasRoom(p, LatencyClient(p.warmup) + TrialsClient(p.trials, p.iters, p.txDepth)[..n])
  {
    hide Spent, LatencyClient, TrialsClient, AtTrialEnd, EndsTrial;
    var first, mid := LatencyClient(p.warmup), TrialsClient(p.trials, p.iters, p.txDepth);
    LatencyClientPlan(NOTHING, p.warmup, p.txDepth);
    SpentConcat(NOTHING, first, mid[..n]);
    TrialsRoom(Spent(NOTHING, first), p.trials, p.iters, p.txDepth, n);
    if EndsTrial(mid[..n], p.trials, p.iters, p.txDepth) {
      TrialEndMoves(p, mid[..n]);
    }
  }

  lemma LastRoom(p: Plan, before: seq<Instr>, last: seq<Instr>, n: nat)
    requires Valid(p) && before == BeforeTrial(p, p.trials) && last == LatencyClient(p.iters) && n <= |last|
    ensures HasRoom(p, before + last[..n])
  {
    hide LatencyClient, Spent, BeforeTrial, HasRoom, Later, Balanced;
    BeforeTrialSpent(p, p.trials);
    BalancedAtFirst();
    StaysBalanced(NOTHING, p.warmup + p.trials * (p.iters + 1), p.warmup + p.trials);
    SpentConcat(NOTHING, before, last[..n]);
    LatencyRoom(Spent(NOTHING, before), p.iters, p.txDepth, last, n);
    NotOverfull(p, before + last[..n]);
  }

  lemma RunRoom(p: Plan, pc: nat)
    requires Valid(p) && pc <= |RunClient(p.warmup, p.trials, p.iters, p.txDepth)|
    ensures HasRoom(p, RunClient(p.warmup, p.trials, p.iters, p.txDepth)[..pc])
  {
    var first, mid, last := LatencyClient(p.warmup), TrialsClient(p.trials, p.iters, p.txDepth), LatencyClient(p.iters);
    var all := RunClient(p.warmup, p.trials, p.iters, p.txDepth);
    assert all == first + mid + last && BeforeTrial(p, p.trials) == first + mid;
    hide HasRoom, RunClient, BeforeTrial, LatencyClient, TrialsClient;
    if pc <= |first| {
      assert all[..pc] == first[..pc];
      WarmupRoom(p, first, pc);
    } else if pc <= |first + mid| {
      assert all[..pc] == first + mid[..pc - |first|];
      ThroughputRoom(p, pc - |first|);
    } else {
      assert all[..pc] == first + mid + last[..pc - |first + mid|];
      LastRoom(p, first + mid, last, pc - |first + mid|);
    }
  }

  lemma TrialEndMoves(p: Plan, prefix: seq<Instr>)
    requires Valid(p) && EndsTrial(prefix, p.trials, p.iters, p.txDepth)
    ensures AtTrialEnd(p, LatencyClient(p.warmup) + prefix)
  {
    hide LatencyClient, TrialsClient, Writes;
    var t :| 0 <= t < p.trials
             && prefix == TrialsClient(t, p.iters, p.txDepth) + Writes(p.iters, p.txDepth) + [PostControl];
    assert LatencyClient(p.warmup) + prefix
        == BeforeTrial(p, t) + Writes(p.iters, p.txDepth) + [PostControl];
  }

  // ----- runs -------------------------------------------------------------------------------

  // The sends a client has posted and not yet taken the completion of.
  function Unacknowledged(c: Side): int {
    c.posted - c.sendsTaken
  }

  // In every reachable state the sends outstanding fit the queue, but for one
  // case: the control message that ends a trial whose writes fill whole queues
  // makes it one longer.
  lemma SendQueueBound(p: Plan, s: System)
    requires Valid(p) && Reachable(p, s)
    ensures Unacknowledged(s.client) <= p.txDepth + 1
    ensures Unacknowledged(s.client) > p.txDepth ==>
              && s.client.pc <= |s.client.prog| && AtTrialEnd(p, s.client.prog[..s.client.pc])
              && p.iters > 0 && p.iters % p.txDepth == 0
  {
    hide Spent, RunClient, RunServer, AtTrialEnd, Reachable;
    Counts(p, s);
    RunRoom(p, s.client.pc);
  }

  lemma {:induction false} TrialsPrefix(trials: nat, t: nat, iters: nat, txDepth: nat) returns (rest: seq<Instr>)
    requires txDepth > 0 && t < trials
    ensures TrialsClient(trials, iters, txDepth)
         == TrialsClient(t, iters, txDepth) + TrialClient(iters, txDepth) + rest
  {
    if t == trials - 1 {
      rest := [];
    } else {
      var r := TrialsPrefix(trials - 1, t, iters, txDepth);
      rest := r + TrialClient(iters, txDepth);
    }
  }

  lemma FinalSendNext(p: Plan, t: nat, prog: seq<Instr>, pc: nat)
    requires Valid(p) && t < p.trials && pc <= |prog|
    requires prog == RunClient(p.warmup, p.trials, p.iters, p.txDepth)
    requires pc == |BeforeTrial(p, t) + Writes(p.iters, p.txDepth)|
    ensures prog[..pc] == BeforeTrial(p, t) + Writes(p.iters, p.txDepth)
    ensures pc < |prog| && prog[pc] == PostControl
  {
    hide Writes, TrialsClient, LatencyClient, NumComplete;
    var rest := TrialsPrefix(p.trials, t, p.iters, p.txDepth);
    var w := Writes(p.iters, p.txDepth);
    Outstanding(p.iters, p.txDepth);
    var tail := [PostControl, Wait(p.iters - NumComplete(p.iters, p.txDepth) + 2)] + rest + LatencyClient(p.iters);
    assert prog == BeforeTrial(p, t) + w + tail;
  }

  // In every trial of every run the control message behind the writes exceeds
  // txDepth exactly when the number of iterations is a positive multiple of it.
  lemma FinalSendExactly(p: Plan, s: System, t: nat)
    requires Valid(p) && Reachable(p, s) && t < p.trials
    requires s.client.pc == |BeforeTrial(p, t) + Writes(p.iters, p.txDepth)| <= |s.client.prog|
    ensures s.client.pc < |s.client.prog| && s.client.prog[s.client.pc] == PostControl
    ensures Enabled(s, Step(true, Advance))
    ensures Unacknowledged(Apply(s, Step(true, Advance)).client) == p.txDepth + 1
            <==> p.iters > 0 && p.iters % p.txDepth == 0
  {
    hide Spent, ClientPlan, BeforeTrial, RunClient, RunServer, Reachable;
    var w := Writes(p.iters, p.txDepth);
    Counts(p, s);
    FinalSendNext(p, t, s.client.prog, s.client.pc);
    ClientLockstep(p, s);
    BeforeTrialSpent(p, t);
    WritesPlan(Spent(NOTHING, BeforeTrial(p, t)), p.iters, p.txDepth);
    SpentConcat(NOTHING, BeforeTrial(p, t), w);
    FullQueueExactly(p.iters, p.txDepth);
  }

  // ----- every point of the program is reached ------------------------------------------

  lemma ToTheEnd(p: Plan, steps: seq<Step>) returns (run: seq<Step>)
    requires Valid(p) && ValidRun(Init(p), steps)
    ensures ValidRun(Init(p), run) && Finished(Execute(Init(p), run))
    decreases WorkLeft(Init(p)) - |steps|
  {
    hide WorkLeft, Init, Finished;
    EveryRunFinishes(p, steps);
    if Finished(Execute(Init(p), steps)) {
      run := steps;
    } else {
      var step :| ValidRun(Init(p), steps + [step]);
      run := ToTheEnd(p, steps + [step]);
    }
  }

  lemma OnePcAtATime(s: System, step: Step)
    requires Enabled(s, step)
    ensures Apply(s, step).client.pc <= s.client.pc + 1 && Apply(s, step).client.prog == s.client.prog
  {
  }

  lemma {:induction false} PassesThrough(s0: System, run: seq<Step>, pc: nat) returns (steps: seq<Step>)
    requires ValidRun(s0, run) && s0.client.pc <= pc <= Execute(s0, run).client.pc
    ensures ValidRun(s0, steps) && Execute(s0, steps).client.pc == pc
    decreases |run|
  {
    if Execute(s0, run).client.pc == pc {
      steps := run;
    } else {
      var before := run[..|run| - 1];
      OnePcAtATime(Execute(s0, before), run[|run| - 1]);
      hide Enabled, Apply;
      steps := PassesThrough(s0, before, pc);
    }
  }

  lemma ProgramStays(p: Plan, steps: seq<Step>)
    requires Valid(p) && ValidRun(Init(p), steps)
    ensures Execute(Init(p), steps).client.prog == RunClient(p.warmup, p.trials, p.iters, p.txDepth)
  {
    hide RunClient, RunServer, SideOk, ClientOk, CrossOk;
    RunKeepsInv(p, steps);
  }

  // A run up to the final control message of a trial.
  lemma ReachTrialEnd(p: Plan, t: nat) returns (steps: seq<Step>)
    requires Valid(p) && t < p.trials
    ensures ValidRun(Init(p), steps)
    ensures var c := Execute(Init(p), steps).client;
            c.pc == |BeforeTrial(p, t) + Writes(p.iters, p.txDepth)| <= |c.prog|
  {
    var all := ToTheEnd(p, []);
    ProgramStays(p, all);
    var n := |BeforeTrial(p, t) + Writes(p.iters, p.txDepth)|;
    assert n <= |RunClient(p.warmup, p.trials, p.iters, p.txDepth)| by {
      var rest := TrialsPrefix(p.trials, t, p.iters, p.txDepth);
    }
    assert Init(p).client.pc == 0;
    hide Init, BeforeTrial, RunClient, Writes, ValidRun, Execute;
    steps := PassesThrough(Init(p), all, n);
    ProgramStays(p, steps);
  }

  // A run to the point where the control message of a trial has overfilled the
  // queue and its round is open.
  lemma ReachOverfull(p: Plan) returns (steps: seq<Step>)
    requires Valid(p) && p.trials > 0 && p.iters > 0 && p.iters % p.txDepth == 0
    ensures ValidRun(Init(p), steps)
    ensures var c := Execute(Init(p), steps).client;
            Unacknowledged(c) == p.txDepth + 1 && c.controls == c.receivesTaken + 1
  {
    var before := ReachTrialEnd(p, 0);
    hide Init, BeforeTrial, Writes, ValidRun, Execute;
    var s := Execute(Init(p), before);
    assert Reachable(p, s);
    FinalSendExactly(p, s, 0);
    ClientLockstep(p, s);
    Extended(Init(p), before, Step(true, Advance));
    steps := before + [Step(true, Advance)];
  }

  // The send queue is overfilled in some run if and only if there is a trial and
  // the number of iterations is a positive multiple of the queue's depth.
  lemma ExceedsExactly(p: Plan)
    requires Valid(p)
    ensures (exists s :: Reachable(p, s) && Unacknowledged(s.client) > p.txDepth)
            <==> p.trials > 0 && p.iters > 0 && p.iters % p.txDepth == 0
  {
    if s :| Reachable(p, s) && Unacknowledged(s.client) > p.txDepth {
      SendQueueBound(p, s);
    }
    if p.trials > 0 && p.iters > 0 && p.iters % p.txDepth == 0 {
      var steps := ReachOverfull(p);
      assert Reachable(p, Execute(Init(p), steps));
    }
  }

  // ----- the completion queue ---------------------------------------------------------------

  // The server never has more than its latest reply unacknowledged.
  lemma {:induction false} ServerAcknowledged(p: Plan, steps: seq<Step>)
    requires Valid(p) && ValidRun(Init(p), steps)
    ensures Unacknowledged(Execute(Init(p), steps).server) <= 1
    decreases |steps|
  {
    if steps != [] {
      var before, step := steps[..|steps| - 1], steps[|steps| - 1];
      var s := Execute(Init(p), before);
      ServerAcknowledged(p, before);
      assert Reachable(p, s);
      hide Init, RunClient, RunServer, Reachable;
      if step == Step(false, Advance) && !s.server.prog[s.server.pc].Wait? {
        ServerLockstep(p, s);
      }
    }
  }

  // Completions waiting on either side.
  lemma CompletionQueueBound(p: Plan, s: System)
    requires Valid(p) && Reachable(p, s)
    ensures |s.client.cq| <= Unacknowledged(s.client) + 1 <= p.txDepth + 2
    ensures Unacknowledged(s.server) <= 1 && |s.server.cq| <= 2
  {
    Counts(p, s);
    SendQueueBound(p, s);
    var steps :| ValidRun(Init(p), steps) && Execute(Init(p), steps) == s;
    ServerAcknowledged(p, steps);
    QueueCounts(s.client, Spent(NOTHING, s.client.prog[..s.client.pc]), s.rxDepth);
    QueueCounts(s.server, Spent(NOTHING, s.server.prog[..s.server.pc]), s.rxDepth);
    hide Spent, RunClient, RunServer, AtTrialEnd;
  }

  // A step that leaves the client's program where it is.
  predicate Background(step: Step) {
    !step.onClient || step.act.Complete? || step.act.Deliver?
  }

  lemma BackgroundKeeps(s: System, step: Step)
    requires Enabled(s, step) && Background(step)
    ensures var c, c' := s.client, Apply(s, step).client;
            && c'.posted == c.posted && c'.controls == c.controls
            && c'.sendsTaken == c.sendsTaken && c'.receivesTaken == c.receivesTaken
  {
  }

  // While the client waits, everything else can be run until it can go no further.
  lemma Settle(p: Plan, steps: seq<Step>) returns (run: seq<Step>)
    requires Valid(p) && ValidRun(Init(p), steps)
    ensures ValidRun(Init(p), run)
    ensures var c, c' := Execute(Init(p), steps).client, Execute(Init(p), run).client;
            && c'.posted == c.posted && c'.controls == c.controls
            && c'.sendsTaken == c.sendsTaken && c'.receivesTaken == c.receivesTaken
    ensures forall step | Background(step) :: !Enabled(Execute(Init(p), run), step)
    decreases WorkLeft(Init(p)) - |steps|
  {
    var s := Execute(Init(p), steps);
    hide WorkLeft, Init, Enabled, Background;
    if step :| Background(step) && Enabled(s, step) {
      Extended(Init(p), steps, step);
      EveryRunFinishes(p, steps + [step]);
      BackgroundKeeps(s, step);
      run := Settle(p, steps + [step]);
    } else {
      run := steps;
    }
  }

  // Then every send of the client has completed and every message of it has
  // been answered.
  lemma Settled(p: Plan, s: System)
    requires Valid(p) && Reachable(p, s) && forall step | Background(step) :: !Enabled(s, step)
    ensures |s.client.cq| == Unacknowledged(s.client) + s.client.controls - s.client.receivesTaken
  {
    hide Spent, RunClient, RunServer, Reachable, ClientPlan;
    Counts(p, s);
    ReceivesReady(p, s);
    var c, v := s.client, s.server;
    assert !Enabled(s, Step(true, Complete)) && !Enabled(s, Step(true, Deliver));
    assert Stuck(v, c) by {
      assert !Enabled(s, Step(false, Advance)) && !Enabled(s, Step(false, Take));
      assert !Enabled(s, Step(false, Complete)) && !Enabled(s, Step(false, Deliver));
    }
    ServerStuck(p, s);
    RunClientPlan(p.warmup, p.trials, p.iters, p.txDepth);
    SpentGrows(c.prog, c.pc);
    QueueCounts(c, Spent(NOTHING, c.prog[..c.pc]), s.rxDepth);
  }

  // The completion queue, created with rxDepth + txDepth entries, overflows on
  // the client in some run if and only if the receive queue has depth 1 and the
  // send queue is overfilled in some run.
  lemma OverflowsExactly(p: Plan)
    requires Valid(p)
    ensures (exists s :: Reachable(p, s) && |s.client.cq| > p.rxDepth + p.txDepth)
            <==> p.rxDepth == 1 && p.trials > 0 && p.iters > 0 && p.iters % p.txDepth == 0
  {
    if s :| Reachable(p, s) && |s.client.cq| > p.rxDepth + p.txDepth {
      CompletionQueueBound(p, s);
      SendQueueBound(p, s);
    }
    if p.rxDepth == 1 && p.trials > 0 && p.iters > 0 && p.iters % p.txDepth == 0 {
      var steps := ReachOverfull(p);
      var run := Settle(p, steps);
      assert Reachable(p, Execute(Init(p), run));
      Settled(p, Execute(Init(p), run));
    }
  }
}
