// The test programs themselves. Each method records the posts and waits it
// makes; what a recorded wait does is pp_wait_completions, which is shown to be
// that many steps of the run that take the oldest completion.
module BenchmarkProgram {
  import opened Benchmark
  import opened BenchmarkRuns
  import opened Polling

  const NUM_OF_WARMUP: nat := 500
  const MESSAGE_SIZES: seq<nat> :=
    [1, 2, 4, 8, 16, 32, 64, 128, 256, 512, 1024, 2048, 4096, 8192, 16384, 32768, 65536, 131072, 262144, 524288,
     1048576]

  // What the adapter is asked to send: the identifier that its completion will
  // carry, whether it is written directly, and how many bytes.
  datatype Request = Request(wrId: int, write: bool, length: nat)

  // The requests of one trial: the writes of the given size and one control message.
  function TrialRequests(iters: nat, messageSize: nat, size: nat): (rs: seq<Request>)
    ensures |rs| == iters + 1 && rs[iters] == Request(2, false, size)
    ensures forall i | 0 <= i < iters :: rs[i] == Request(2, true, messageSize)
  {
    seq(iters, _ => Request(SEND_WRID, true, messageSize)) + [Request(SEND_WRID, false, size)]
  }

  // The requests of the first n trials.
  function TrialsRequests(n: nat, iters: nat, size: nat): (rs: seq<Request>)
    requires n <= |MESSAGE_SIZES|
  {
    if n == 0 then [] else TrialsRequests(n - 1, iters, size) + TrialRequests(iters, MESSAGE_SIZES[n - 1], size)
  }

  // Request number i of trial number t: a write of 2^t bytes, and behind the
  // last of them the control message.
  lemma {:induction false} TrialsRequestsAt(n: nat, iters: nat, size: nat, t: nat, i: nat)
    requires t < n <= 21 && i <= iters
    ensures |TrialsRequests(n, iters, size)| == n * (iters + 1)
    ensures 0 <= t * (iters + 1) + i < n * (iters + 1)
    ensures TrialsRequests(n, iters, size)[t * (iters + 1) + i]
         == if i < iters then Request(2, true, Pow2(t)) else Request(2, false, size)
  {
    TrialsRequestsLength(n, iters, size);
    TrialsRequestsLength(n - 1, iters, size);
    assert (n - 1) * (iters + 1) + (iters + 1) == n * (iters + 1);
    assert t * (iters + 1) + (n - 1 - t) * (iters + 1) == (n - 1) * (iters + 1);
    if t < n - 1 {
      TrialsRequestsAt(n - 1, iters, size, t, i);
    } else {
      SizesArePowers(t);
    }
  }

  lemma {:induction false} TrialsRequestsLength(n: nat, iters: nat, size: nat)
    requires n <= 21
    ensures |TrialsRequests(n, iters, size)| == n * (iters + 1)
  {
    hide TrialRequests;
    if n > 0 {
      TrialsRequestsLength(n - 1, iters, size);
      assert (n - 1) * (iters + 1) + (iters + 1) == n * (iters + 1);
    }
  }

  function Pow2(n: nat): nat {
    if n == 0 then 1 else 2 * Pow2(n - 1)
  }

  // The sizes are the powers of two from one byte to a megabyte.
  lemma SizesArePowers(t: nat)
    requires t < 21
    ensures |MESSAGE_SIZES| == 21 && MESSAGE_SIZES[t] == Pow2(t)
  {
    if t > 0 {
      SizesArePowers(t - 1);
      assert MESSAGE_SIZES[t] == 2 * MESSAGE_SIZES[t - 1];
    }
  }

  function Copies(n: nat, r: Request): (rs: seq<Request>)
    ensures |rs| == n
  {
    seq(n, _ => r)
  }

  lemma NoTrials(trace: seq<Instr>, requests: seq<Request>, iters: nat, txDepth: nat, size: nat)
    requires txDepth >= 1
    ensures trace + TrialsClient(0, iters, txDepth) == trace + TrialsServer(0) == trace
    ensures requests + TrialsRequests(0, iters, size) == requests
    ensures requests + Copies(0, Request(2, false, size)) == requests
  {
  }

  lemma NextTrial(trace: seq<Instr>, i: nat, iters: nat, txDepth: nat)
    requires txDepth >= 1
    ensures trace + TrialsClient(i + 1, iters, txDepth)
         == trace + TrialsClient(i, iters, txDepth) + TrialClient(iters, txDepth)
    ensures trace + TrialsServer(i + 1) == trace + TrialsServer(i) + TrialServer()
  {
    hide TrialClient, TrialServer;
  }

  lemma NextRequests(requests: seq<Request>, i: nat, iters: nat, size: nat)
    requires i < |MESSAGE_SIZES|
    ensures requests + TrialsRequests(i + 1, iters, size)
         == requests + TrialsRequests(i, iters, size) + TrialRequests(iters, MESSAGE_SIZES[i], size)
    ensures requests + Copies(i + 1, Request(2, false, size))
         == requests + Copies(i, Request(2, false, size)) + [Request(2, false, size)]
  {
    hide TrialRequests;
  }

  class Endpoint {
    const isClient: bool
    const size: nat  // of a control message
    var trace: seq<Instr>
    var requests: seq<Request>

    constructor (isClient: bool, size: nat)
      ensures this.isClient == isClient && this.size == size && trace == [] && requests == []
    {
      this.isClient, this.size := isClient, size;
      trace, requests := [], [];
    }

    method PostRdmaWrite(messageSize: nat)
      modifies this
      ensures trace == old(trace) + [PostWrite]
      ensures requests == old(requests) + [Request(2, true, messageSize)]
    {
      trace := trace + [PostWrite];
      requests := requests + [Request(SEND_WRID, true, messageSize)];
    }

    method PostSend()
      modifies this
      ensures trace == old(trace) + [PostControl]
      ensures requests == old(requests) + [Request(2, false, size)]
    {
      trace := trace + [PostControl];
      requests := requests + [Request(SEND_WRID, false, size)];
    }

    method WaitCompletions(n: nat)
      modifies this`trace
      ensures trace == old(trace) + [Instr.Wait(n)]
    {
      trace := trace + [Instr.Wait(n)];
    }

    method PerformSingleExperiment(txDepth: nat, iters: nat, messageSize: nat)
      requires txDepth >= 1
      modifies this
      ensures trace == old(trace) + if isClient then TrialClient(iters, txDepth) else TrialServer()
      ensures requests == old(requests) + if isClient then TrialRequests(iters, messageSize, size)
                                          else [Request(2, false, size)]
    {
      if isClient {
        var numComplete := 0;
        for i := 0 to iters
          invariant trace == old(trace) + Writes(i, txDepth) && numComplete == NumComplete(i, txDepth)
          invariant requests == old(requests) + Copies(i, Request(SEND_WRID, true, messageSize))
        {
          if i != 0 && i % txDepth == 0 {
            WaitCompletions(txDepth);
            numComplete := numComplete + txDepth;
          }
          PostRdmaWrite(messageSize);
        }
        Outstanding(iters, txDepth);
        PostSend();
        WaitCompletions(iters - numComplete + 2);
      } else {
        WaitCompletions(1);
        PostSend();
        WaitCompletions(1);
      }
    }

    // Trial number t writes messages of 2^t bytes.
    method ThroughputTest(txDepth: nat, iters: nat)
      requires txDepth >= 1
      modifies this
      ensures trace == old(trace) + if isClient then TrialsClient(21, iters, txDepth) else TrialsServer(21)
      ensures requests == old(requests) + if isClient then TrialsRequests(21, iters, size)
                                          else Copies(21, Request(2, false, size))
    {
      hide TrialsClient, TrialsServer, TrialClient, TrialServer, TrialsRequests, TrialRequests, Copies;
      NoTrials(trace, requests, iters, txDepth, size);
      for i := 0 to |MESSAGE_SIZES|
        invariant isClient ==> trace == old(trace) + TrialsClient(i, iters, txDepth)
        invariant !isClient ==> trace == old(trace) + TrialsServer(i)
        invariant isClient ==> requests == old(requests) + TrialsRequests(i, iters, size)
        invariant !isClient ==> requests == old(requests) + Copies(i, Request(SEND_WRID, false, size))
      {
        NextTrial(old(trace), i, iters, txDepth);
        NextRequests(old(requests), i, iters, size);
        PerformSingleExperiment(txDepth, iters, MESSAGE_SIZES[i]);
      }
    }

    method LatencyTest(iters: nat)
      modifies this
      ensures trace == old(trace) + if isClient then LatencyClient(iters) else LatencyServer(iters)
      ensures requests == old(requests) + Copies(iters, Request(2, false, size))
    {
      for i := 0 to iters
        invariant isClient ==> trace == old(trace) + LatencyClient(i)
        invariant !isClient && i == 0 ==> trace == old(trace)
        invariant !isClient && 0 < i < iters ==> trace == old(trace) + LatencyServerOpen(i) + [Instr.Wait(2)]
        invariant !isClient && 0 < i == iters ==> trace == old(trace) + LatencyServer(iters)
        invariant requests == old(requests) + Copies(i, Request(SEND_WRID, false, size))
      {
        if isClient {
          PostSend();
          WaitCompletions(2);
        } else {
          if i == 0 {
            WaitCompletions(1);
          }
          PostSend();
          assert trace == old(trace) + LatencyServerOpen(i + 1);
          if i == iters - 1 {
            WaitCompletions(1);
          } else {
            WaitCompletions(2);
          }
        }
      }
    }

    // The whole test makes exactly the posts and waits that the runs of both
    // sides start from: 500 rounds to warm up, 21 trials, and the latency test.
    method Run(txDepth: nat, iters: nat, ghost rxDepth: nat)
      requires txDepth >= 1 && rxDepth >= 1 && trace == [] && requests == []
      modifies this
      ensures var start := Init(Plan(500, 21, iters, txDepth, rxDepth));
              trace == if isClient then start.client.prog else start.server.prog
      ensures var control := Request(2, false, size);
              requests == Copies(500, control)
                          + (if isClient then TrialsRequests(21, iters, size) else Copies(21, control))
                          + Copies(iters, control)
    {
      hide LatencyClient, LatencyServer, TrialsClient, TrialsServer, TrialsRequests, Copies;
      LatencyTest(NUM_OF_WARMUP);
      ThroughputTest(txDepth, iters);
      LatencyTest(iters);
    }
  }

  // ----- a wait is that many completions taken ---------------------------------------------

  function KindOf(wc: Completion): Kind {
    if wc.wrId == RECV_WRID then ReceiveDone else SendDone
  }

  function Kinds(s: seq<Completion>): seq<Kind> {
    seq(|s|, i requires 0 <= i < |s| => KindOf(s[i]))
  }

  predicate CanTake(me: Side, n: nat) {
    me.pc < |me.prog| && me.prog[me.pc].Wait? && me.waited + n <= me.prog[me.pc].n && n <= |me.cq|
  }

  function TakeAll(me: Side, n: nat, rxDepth: nat, other: Side): (r: Side)
    requires CanTake(me, n)
    ensures r.prog == me.prog && r.pc == me.pc && r.waited == me.waited + n && r.cq == me.cq[n..]
    ensures r.sendsTaken + r.receivesTaken == me.sendsTaken + me.receivesTaken + n
  {
    if n == 0 then me else Acted(TakeAll(me, n - 1, rxDepth, other), Take, rxDepth, other)
  }

  // The completions that a successful call of pp_wait_completions takes are
  // those that many single steps take, with the same refills in between; and a
  // call for as many as the program waits for lets the program go on.
  lemma {:induction false} WaitIsTakes(me: Side, taken: seq<Completion>, rxDepth: nat, other: Side)
    requires CanTake(me, |taken|) && Kinds(taken) == me.cq[..|taken|]
    ensures TakeAll(me, |taken|, rxDepth, other).routs == CreditsAfter(me.routs, taken, rxDepth)
    ensures me.waited + |taken| == me.prog[me.pc].n ==> CanAct(TakeAll(me, |taken|, rxDepth, other), other, Advance)
  {
    if taken != [] {
      var n := |taken| - 1;
      assert Kinds(taken[..n]) == me.cq[..n];
      WaitIsTakes(me, taken[..n], rxDepth, other);
      assert TakeAll(me, n, rxDepth, other).cq[0] == me.cq[n] == Kinds(taken)[n];
    }
  }
}
