// What the size of a call has to do with safety. The code checks less than it
// should: this is exactly when a system of clients runs without faults.
module ProtocolGuard {
  import opened Messages
  import opened History
  import opened ServerStore
  import opened Protocol
  import opened ProtocolRuns
  import opened ProtocolTheorems
  import opened ProtocolProgress

  // The lengths for which the first message of a call fits, and with it all
  // later ones and the transfer. A set that kv_set sends eagerly has room for ten
  // bytes beside its strings; one that it sends by rendezvous has room for nine
  // beside its key, and the length of its transfer has 32 bits.
  lemma FittingLengths(op: Op)
    ensures op.Set? ==>
              (OpFits(op) <==> || |op.key| + |op.value| <= 4086
                               || (|op.key| + |op.value| >= 4095 && |op.key| <= 4087 && |op.value| + 1 < TWO_TO_32))
    ensures op.Get? ==> (OpFits(op) <==> |op.key| <= 4095)
  {
  }

  // No handler faults and no client oversteps.
  predicate Safe(s: State) {
    !s.pc.Crashed? && forall i | 0 <= i < |s.clients| :: !s.clients[i].phase.Broken?
  }

  // ----- running one client to the end of its script -----------------------------------

  predicate NoQuit(steps: seq<Step>) {
    forall n | 0 <= n < |steps| :: !steps[n].Quit?
  }

  lemma StaysOpen(s: State, step: Step, i: nat)
    requires Enabled(s, step) && !step.Quit? && i < |s.clients| && !s.clients[i].phase.Closed?
    ensures |Apply(s, step).clients| == |s.clients| && !Apply(s, step).clients[i].phase.Closed?
  {
    hide Respond;
  }

  lemma Next(s: State, i: nat, bound: nat) returns (step: Step)
    requires StateInv(s) && Bounded(s, bound) && HasRoom(s, bound) && i < |s.clients| && !s.clients[i].phase.Closed?
    requires !(s.clients[i].phase.Idle? && s.clients[i].script == [])
    ensures Enabled(s, step) && !step.Quit?
    ensures step.Poll? ==> exists j :: 0 <= j < |s.clients| && s.clients[j].up.ready > 0
  {
    OpenMeansRunning(s, i);
    if s.pc.Granting? {
      step := Finish;
    } else if s.pc.Handling? {
      var f := FreshExists(s, bound);
      step := Handle(f);
    } else {
      assert s.pc.Polling?;
      step := ClientStep(s, i);
    }
  }

  lemma Drain(s: State, i: nat, bound: nat) returns (steps: seq<Step>)
    requires StateInv(s) && Bounded(s, bound) && EnoughRoom(s, bound)
    requires i < |s.clients| && !s.clients[i].phase.Closed?
    ensures ValidRun(s, steps) && NoQuit(steps)
    ensures var s' := Execute(s, steps);
            i < |s'.clients| && s'.clients[i].phase.Idle? && s'.clients[i].script == []
    decreases WorkLeft(s, bound), |s.clients| + 1
  {
    hide StateInv, Bounded, WorkLeft;
    if s.clients[i].phase.Idle? && s.clients[i].script == [] {
      steps := [];
    } else {
      RoomNow(s, bound);
      var step := Next(s, i, bound);
      if step.Poll? {
        var j :| 0 <= j < |s.clients| && s.clients[j].up.ready > 0;
        steps := DrainPolling(s, i, j, bound);
      } else {
        hide Apply, Enabled, EnoughRoom;
        StepUsesWork(s, step, bound);
        RoomLasts(s, step, bound);
        StaysOpen(s, step, i);
        var rest := Drain(Apply(s, step), i, bound);
        RunCons(s, step, rest);
        steps := [step] + rest;
      }
    }
  }

  lemma DrainPolling(s: State, i: nat, j: nat, bound: nat) returns (steps: seq<Step>)
    requires StateInv(s) && Bounded(s, bound) && EnoughRoom(s, bound)
    requires i < |s.clients| && !s.clients[i].phase.Closed?
    requires s.pc.Polling? && j < |s.clients| && s.clients[j].up.ready > 0
    ensures ValidRun(s, steps) && NoQuit(steps)
    ensures var s' := Execute(s, steps);
            i < |s'.clients| && s'.clients[i].phase.Idle? && s'.clients[i].script == []
    decreases WorkLeft(s, bound), |s.clients|, (if s.at < |s.clients| then Turns(s, j) else 0)
  {
    hide StateInv, Bounded, WorkLeft, Turns, EnoughRoom, Execute, ValidRun;
    OpenMeansRunning(s, i);
    assert Enabled(s, Poll);
    hide Enabled;
    var s' := Apply(s, Poll);
    var rest;
    StepUsesWork(s, Poll, bound);
    RoomLasts(s, Poll, bound);
    StaysOpen(s, Poll, i);
    if EmptyPoll(s, Poll) {
      TurnsStep(s, Poll, j);
      rest := DrainPolling(s', i, j, bound);
    } else {
      rest := Drain(s', i, bound);
    }
    hide Apply;
    RunCons(s, Poll, rest);
    steps := [Poll] + rest;
  }

  // ----- longer scripts allow the same steps ---------------------------------------------

  function Extended(s: State, more: seq<seq<Op>>): (t: State)
    requires |more| == |s.clients|
    ensures |t.clients| == |s.clients|
  {
    s.(clients := seq(|s.clients|, i requires 0 <= i < |s.clients| =>
                    s.clients[i].(script := s.clients[i].script + more[i])))
  }

  lemma ExtendedServerStep(s: State, more: seq<seq<Op>>, step: Step)
    requires |more| == |s.clients| && Enabled(s, step) && (step.Poll? || step.Handle? || step.Finish?)
    ensures |Apply(s, step).clients| == |s.clients|
    ensures Enabled(Extended(s, more), step)
    ensures Apply(Extended(s, more), step) == Extended(Apply(s, step), more)
  {
    hide Respond;
    assert Apply(Extended(s, more), step).clients == Extended(Apply(s, step), more).clients;
  }

  lemma ExtendedStep(s: State, more: seq<seq<Op>>, step: Step)
    requires |more| == |s.clients| && Enabled(s, step) && !step.Quit?
    ensures |Apply(s, step).clients| == |s.clients|
    ensures Enabled(Extended(s, more), step)
    ensures Apply(Extended(s, more), step) == Extended(Apply(s, step), more)
  {
    if step.Poll? || step.Handle? || step.Finish? {
      ExtendedServerStep(s, more, step);
    } else {
      if step.Begin? {
        assert (s.clients[step.i].script + more[step.i])[1..] == s.clients[step.i].script[1..] + more[step.i];
      }
      assert Apply(Extended(s, more), step).clients == Extended(Apply(s, step), more).clients;
    }
  }

  lemma {:induction false} ExtendedRun(s: State, more: seq<seq<Op>>, steps: seq<Step>)
    requires |more| == |s.clients| && ValidRun(s, steps) && NoQuit(steps)
    ensures |Execute(s, steps).clients| == |s.clients|
    ensures ValidRun(Extended(s, more), steps)
    ensures Execute(Extended(s, more), steps) == Extended(Execute(s, steps), more)
    decreases |steps|
  {
    hide Extended, Apply, Enabled;
    if steps != [] {
      ExtendedRun(s, more, steps[..|steps| - 1]);
      ExtendedStep(Execute(s, steps[..|steps| - 1]), more, steps[|steps| - 1]);
    }
  }

  // ----- the theorem ------------------------------------------------------------------------

  lemma {:induction false} FirstUnfit(script: seq<Op>) returns (n: nat)
    requires exists op :: op in script && !OpFits(op)
    ensures n < |script| && !OpFits(script[n]) && forall op | op in script[..n] :: OpFits(op)
  {
    if !OpFits(script[0]) {
      n := 0;
    } else {
      n := FirstUnfit(script[1..]);
      n := n + 1;
      assert forall op | op in script[..n] :: op == script[0] || op in script[1..][..n - 1];
    }
  }

  // The same system with nobody but client i working, and only up to its n-th call.
  function Only(s: State, i: nat, n: nat): State
    requires i < |s.clients| && n <= |s.clients[i].script|
  {
    s.(clients := seq(|s.clients|, j requires 0 <= j < |s.clients| =>
                    s.clients[j].(script := if j == i then s.clients[i].script[..n] else [])))
  }

  function Rest(s: State, i: nat, n: nat): (more: seq<seq<Op>>)
    requires i < |s.clients| && n <= |s.clients[i].script|
    ensures |more| == |s.clients|
  {
    seq(|s.clients|, j requires 0 <= j < |s.clients| =>
          if j == i then s.clients[i].script[n..] else s.clients[j].script)
  }

  lemma OnlyAndRest(s: State, i: nat, n: nat)
    requires i < |s.clients| && n <= |s.clients[i].script|
    ensures |Only(s, i, n).clients| == |s.clients| && Extended(Only(s, i, n), Rest(s, i, n)) == s
  {
    var t := Extended(Only(s, i, n), Rest(s, i, n));
    assert forall j | 0 <= j < |s.clients| :: t.clients[j] == s.clients[j];
    assert t.clients == s.clients;
  }

  // The n-th call of client i is the first of its script that does not fit.
  predicate FirstUnfitAt(s: State, i: nat, n: nat) {
    && i < |s.clients| && n < |s.clients[i].script| && !OpFits(s.clients[i].script[n])
    && forall op | op in s.clients[i].script[..n] :: OpFits(op)
  }

  // There is room for the calls of client i before its n-th. The n-th call
  // itself, and the other clients, need none.
  predicate RoomBefore(s: State, i: nat, n: nat)
    requires i < |s.clients| && n <= |s.clients[i].script|
  {
    EnoughRoom(Only(s, i, n), LongestOfAll(Only(s, i, n).clients))
  }

  // A call that does not fit, with room for those before it, can be run into a
  // fault: its client runs alone up to that call.
  lemma FaultReachable(s0: State, i: nat, n: nat) returns (steps: seq<Step>)
    requires Connected(s0) && FirstUnfitAt(s0, i, n) && RoomBefore(s0, i, n)
    ensures ValidRun(s0, steps) && !Safe(Execute(s0, steps))
  {
    var run, t := RunTo(s0, i, n);
    hide Init, Connected, Execute, ValidRun, RoomBefore;
    assert t.clients[i].script[0] == s0.clients[i].script[n];
    OverrunsNow(t, i);
    hide Apply, OpFits;
    steps := run + [Begin(i)];
    RunSnoc(s0, run, Begin(i));
  }

  lemma RunSnoc(s: State, run: seq<Step>, step: Step)
    requires ValidRun(s, run) && Enabled(Execute(s, run), step)
    ensures ValidRun(s, run + [step]) && Execute(s, run + [step]) == Apply(Execute(s, run), step)
  {
    assert (run + [step])[..|run|] == run;
  }

  lemma RunTo(s0: State, i: nat, n: nat) returns (run: seq<Step>, t: State)
    requires Connected(s0) && i < |s0.clients| && n <= |s0.clients[i].script|
    requires RoomBefore(s0, i, n) && forall op | op in s0.clients[i].script[..n] :: OpFits(op)
    ensures ValidRun(s0, run) && t == Execute(s0, run)
    ensures i < |t.clients| && t.clients[i].phase.Idle? && t.clients[i].script == s0.clients[i].script[n..]
  {
    hide StateInv, NoQuit, EnoughRoom, LongestOfAll;
    var s1, more := Only(s0, i, n), Rest(s0, i, n);
    assert Init(s1);
    InitBounded(s1);
    InitInv(s1);
    OnlyAndRest(s0, i, n);
    hide Bounded, Connected, Only;
    run := Drain(s1, i, LongestOfAll(s1.clients));
    ExtendedRun(s1, more, run);
    t := Execute(s0, run);
  }

  // A call breaks its client at once exactly when it does not fit.
  lemma OverrunsNow(s: State, i: nat)
    requires Enabled(s, Begin(i))
    ensures Apply(s, Begin(i)).clients[i].phase.Broken? <==> !OpFits(s.clients[i].script[0])
  {
  }

  // A system runs without faults, in every run, exactly when all its calls fit;
  // if some do not, one of them must be preceded by calls there is room for.
  lemma SafeExactlyWhenAllFit(s0: State)
    requires Connected(s0)
    requires !AllFit(s0) ==> exists i, n :: FirstUnfitAt(s0, i, n) && RoomBefore(s0, i, n)
    ensures (forall steps | ValidRun(s0, steps) :: Safe(Execute(s0, steps))) <==> AllFit(s0)
  {
    if AllFit(s0) {
      forall steps | ValidRun(s0, steps)
        ensures Safe(Execute(s0, steps))
      {
        assert Reachable(Execute(s0, steps));
        NoFaults(Execute(s0, steps));
      }
    } else {
      var i, n :| FirstUnfitAt(s0, i, n) && RoomBefore(s0, i, n);
      var steps := FaultReachable(s0, i, n);
    }
  }

  // ----- when there is room for a prefix -----------------------------------------------------

  lemma {:induction false} PrefixSets(script: seq<Op>, n: nat)
    requires n <= |script|
    ensures SetsIn(script[..n]) <= SetsIn(script) && LongestValue(script[..n]) <= LongestValue(script)
  {
    if n > 0 {
      PrefixSets(script[1..], n - 1);
      assert script[..n][1..] == script[1..][..n - 1];
    }
  }

  lemma {:induction false} SumMonotone(works: seq<nat>, works': seq<nat>)
    requires |works| == |works'| && forall i | 0 <= i < |works| :: works[i] <= works'[i]
    ensures Sum(works) <= Sum(works')
  {
    if works != [] {
      var n := |works| - 1;
      assert forall i | 0 <= i < n :: works[..n][i] == works[i] && works'[..n][i] == works'[i];
      SumMonotone(works[..n], works'[..n]);
    }
  }

  lemma {:induction false} LongestMonotone(cs: seq<Client>, cs': seq<Client>)
    requires |cs| == |cs'| && forall i | 0 <= i < |cs| :: LongestValue(cs[i].script) <= LongestValue(cs'[i].script)
    ensures LongestOfAll(cs) <= LongestOfAll(cs')
  {
    if cs != [] {
      assert forall i | 0 <= i < |cs| - 1 :: cs[1..][i] == cs[i + 1] && cs'[1..][i] == cs'[i + 1];
      LongestMonotone(cs[1..], cs'[1..]);
    }
  }

  // Room for all calls of all clients is room for every prefix.
  lemma RoomForAllIsRoomBefore(s: State, i: nat, n: nat)
    requires Connected(s) && EnoughRoom(s, LongestOfAll(s.clients))
    requires i < |s.clients| && n <= |s.clients[i].script|
    ensures RoomBefore(s, i, n)
  {
    var t := Only(s, i, n);
    forall j | 0 <= j < |s.clients|
      ensures BlockCounts(t)[j] <= BlockCounts(s)[j]
      ensures LongestValue(t.clients[j].script) <= LongestValue(s.clients[j].script)
    {
      PrefixSets(s.clients[j].script, if j == i then n else 0);
      assert s.clients[j].script[..0] == [];
    }
    SumMonotone(BlockCounts(t), BlockCounts(s));
    LongestMonotone(t.clients, s.clients);
    hide Sum;
    LessRoom(s, t, LongestOfAll(s.clients), LongestOfAll(t.clients));
  }

  // Every client with a call that does not fit has a first one.
  lemma SomeFirstUnfit(s: State) returns (i: nat, n: nat)
    requires !AllFit(s)
    ensures FirstUnfitAt(s, i, n)
  {
    var j :| 0 <= j < |s.clients| && !(forall op | op in s.clients[j].script :: OpFits(op));
    i := j;
    n := FirstUnfit(s.clients[i].script);
  }

  // So the room that rules out deadlock is enough for the equivalence as well.
  lemma SafeExactlyWithRoom(s0: State)
    requires Connected(s0) && EnoughRoom(s0, LongestOfAll(s0.clients))
    ensures (forall steps | ValidRun(s0, steps) :: Safe(Execute(s0, steps))) <==> AllFit(s0)
  {
    if !AllFit(s0) {
      var i, n := SomeFirstUnfit(s0);
      RoomForAllIsRoomBefore(s0, i, n);
    }
    SafeExactlyWhenAllFit(s0);
  }
}
