// The bandwidth test as the sequence of posts and waits that each side makes,
// and the accounting that every point of those sequences obeys.
module Benchmark {

  // A wait names how many completions it takes, of either kind.
  datatype Instr = PostWrite | PostControl | Wait(n: nat)

  // ----- what the two sides do ---------------------------------------------------

  function LatencyClient(iters: nat): seq<Instr> {
    if iters == 0 then [] else LatencyClient(iters - 1) + [PostControl, Wait(2)]
  }

  // The server of a latency test up to and including its last reply.
  function LatencyServerOpen(iters: nat): seq<Instr>
    requires iters > 0
  {
    if iters == 1 then [Wait(1), PostControl] else LatencyServerOpen(iters - 1) + [Wait(2), PostControl]
  }

  function LatencyServer(iters: nat): seq<Instr> {
    if iters == 0 then [] else LatencyServerOpen(iters) + [Wait(1)]
  }

  // Before the n-th write the client waits for a full send queue to drain.
  predicate DrainsBefore(n: nat, txDepth: nat)
    requires txDepth > 0
  {
    n != 0 && n % txDepth == 0
  }

  function Writes(iters: nat, txDepth: nat): seq<Instr>
    requires txDepth > 0
  {
    if iters == 0 then []
    else
      Writes(iters - 1, txDepth)
      + (if DrainsBefore(iters - 1, txDepth) then [Wait(txDepth)] else [])
      + [PostWrite]
  }

  // The completions awaited while writing.
  function NumComplete(iters: nat, txDepth: nat): nat
    requires txDepth > 0
  {
    if iters == 0 then 0
    else NumComplete(iters - 1, txDepth) + (if DrainsBefore(iters - 1, txDepth) then txDepth else 0)
  }

  function TrialClient(iters: nat, txDepth: nat): seq<Instr>
    requires txDepth > 0
  {
    Outstanding(iters, txDepth);
    Writes(iters, txDepth) + [PostControl, Wait(iters - NumComplete(iters, txDepth) + 2)]
  }

  function TrialServer(): seq<Instr> {
    [Wait(1), PostControl, Wait(1)]
  }

  function TrialsClient(trials: nat, iters: nat, txDepth: nat): seq<Instr>
    requires txDepth > 0
  {
    if trials == 0 then [] else TrialsClient(trials - 1, iters, txDepth) + TrialClient(iters, txDepth)
  }

  function TrialsServer(trials: nat): seq<Instr> {
    if trials == 0 then [] else TrialsServer(trials - 1) + TrialServer()
  }

  // The whole run: warm-up, throughput trials, latency test.
  function RunClient(warmup: nat, trials: nat, iters: nat, txDepth: nat): seq<Instr>
    requires txDepth > 0
  {
    LatencyClient(warmup) + TrialsClient(trials, iters, txDepth) + LatencyClient(iters)
  }

  function RunServer(warmup: nat, trials: nat, iters: nat): seq<Instr> {
    LatencyServer(warmup) + TrialsServer(trials) + LatencyServer(iters)
  }

  // ----- the accounts --------------------------------------------------------------

  // Posts made (control messages among them), completions taken, and the number
  // of rounds known to be over.
  datatype Budget = Budget(posted: nat, controls: nat, consumed: nat, rounds: nat)

  const NOTHING := Budget(0, 0, 0, 0)

  // Everything posted has completed and every control message has been answered.
  predicate Balanced(b: Budget) {
    b.consumed == b.posted + b.controls && b.rounds == b.controls
  }

  function Tick(b: Budget, instr: Instr): Budget {
    var b' := match instr
      case PostWrite => b.(posted := b.posted + 1)
      case PostControl => b.(posted := b.posted + 1, controls := b.controls + 1)
      case Wait(n) => b.(consumed := b.consumed + n);
    if b'.consumed == b'.posted + b'.controls then b'.(rounds := b'.controls) else b'
  }

  function Spent(b: Budget, prog: seq<Instr>): Budget {
    if prog == [] then b else Tick(Spent(b, prog[..|prog| - 1]), prog[|prog| - 1])
  }

  // A client posts only when all earlier rounds are over and its send queue has
  // room, and never waits for more completions than its posts and their answers
  // can bring; once a round is open it waits for all of them.
  predicate ClientMay(b: Budget, instr: Instr, txDepth: nat) {
    match instr
    case PostWrite => b.rounds == b.controls && b.posted + b.controls < b.consumed + txDepth
    case PostControl => b.rounds == b.controls && b.posted + b.controls <= b.consumed + txDepth
    case Wait(n) =>
      && b.consumed + n <= b.posted + b.controls
      && (b.rounds < b.controls ==> b.consumed + n == b.posted + b.controls)
  }

  predicate ClientPlan(b: Budget, prog: seq<Instr>, txDepth: nat) {
    prog == [] ||
    (ClientPlan(b, prog[..|prog| - 1], txDepth)
     && ClientMay(Spent(b, prog[..|prog| - 1]), prog[|prog| - 1], txDepth))
  }

  // A server replies when it has taken one completion more than its earlier
  // replies and the messages they answered account for, and never waits for
  // more than its replies and the messages of `rounds` rounds can bring.
  predicate ServerMay(b: Budget, instr: Instr, rounds: nat) {
    match instr
    case PostWrite => false
    case PostControl => b.posted == b.controls < rounds && b.consumed == 2 * b.controls + 1
    case Wait(n) =>
      && b.posted == b.controls
      && b.consumed + n <= b.controls + (if b.controls < rounds then b.controls + 1 else b.controls)
  }

  predicate ServerPlan(b: Budget, prog: seq<Instr>, rounds: nat) {
    prog == [] ||
    (ServerPlan(b, prog[..|prog| - 1], rounds)
     && ServerMay(Spent(b, prog[..|prog| - 1]), prog[|prog| - 1], rounds))
  }

  // ----- composing accounts ------------------------------------------------------------

  lemma {:induction false} SpentConcat(b: Budget, p: seq<Instr>, q: seq<Instr>)
    ensures Spent(b, p + q) == Spent(Spent(b, p), q)
    decreases |q|
  {
    if q == [] {
      assert p + q == p;
    } else {
      SpentConcat(b, p, q[..|q| - 1]);
      assert (p + q)[..|p + q| - 1] == p + q[..|q| - 1];
    }
  }

  lemma {:induction false} ClientConcat(b: Budget, p: seq<Instr>, q: seq<Instr>, txDepth: nat)
    requires ClientPlan(b, p, txDepth) && ClientPlan(Spent(b, p), q, txDepth)
    ensures ClientPlan(b, p + q, txDepth)
    decreases |q|
  {
    if q == [] {
      assert p + q == p;
    } else {
      ClientConcat(b, p, q[..|q| - 1], txDepth);
      assert (p + q)[..|p + q| - 1] == p + q[..|q| - 1];
      SpentConcat(b, p, q[..|q| - 1]);
    }
  }

  lemma {:induction false} ServerConcat(b: Budget, p: seq<Instr>, q: seq<Instr>, rounds: nat)
    requires ServerPlan(b, p, rounds) && ServerPlan(Spent(b, p), q, rounds)
    ensures ServerPlan(b, p + q, rounds)
    decreases |q|
  {
    if q == [] {
      assert p + q == p;
    } else {
      ServerConcat(b, p, q[..|q| - 1], rounds);
      assert (p + q)[..|p + q| - 1] == p + q[..|q| - 1];
      SpentConcat(b, p, q[..|q| - 1]);
    }
  }

  // The budget after a balanced stretch of the given posts.
  function Later(b: Budget, posts: nat, controls: nat): Budget {
    Budget(b.posted + posts, b.controls + controls, b.consumed + posts + controls, b.controls + controls)
  }

  // ----- the client ------------------------------------------------------------------------

  lemma Scaled(d: nat, k: int, j: int)
    requires k >= j
    ensures d * k >= d * j
  {
    assert d * k - d * j == d * (k - j);
  }

  lemma ModUnique(m: nat, d: nat, q: nat, r: nat)
    requires d > 0 && m == d * q + r && r < d
    ensures m % d == r
  {
    var q', r' := m / d, m % d;
    assert m == d * q' + r';
    assert d * q - d * q' == d * (q - q');
    if q' < q {
      Scaled(d, q - q', 1);
    } else if q < q' {
      Scaled(d, q' - q, 1);
    }
  }

  lemma ModStep(m: nat, d: nat)
    requires d > 0
    ensures (m + 1) % d == if m % d == d - 1 then 0 else m % d + 1
  {
    var q, r := m / d, m % d;
    assert m == d * q + r;
    if r == d - 1 {
      assert d * (q + 1) == d * q + d;
      ModUnique(m + 1, d, q + 1, 0);
    } else {
      ModUnique(m + 1, d, q, r + 1);
    }
  }

  // The writes not awaited when the writing is over: none, or what the last
  // incomplete (or just complete) batch holds.
  lemma {:induction false} Outstanding(iters: nat, txDepth: nat)
    requires txDepth > 0
    ensures NumComplete(iters, txDepth) <= iters
    ensures iters - NumComplete(iters, txDepth) == if iters == 0 then 0 else (iters - 1) % txDepth + 1
  {
    if iters > 0 {
      Outstanding(iters - 1, txDepth);
      if iters > 1 {
        ModStep(iters - 2, txDepth);
      } else {
        ModUnique(0, txDepth, 0, 0);
      }
    }
  }

  // So the final control message finds the send queue full, and makes it one
  // longer than its depth, exactly when the writes fill whole queues.
  lemma FullQueueExactly(iters: nat, txDepth: nat)
    requires txDepth > 0
    ensures iters - NumComplete(iters, txDepth) + 1 <= txDepth + 1
    ensures iters - NumComplete(iters, txDepth) + 1 == txDepth + 1 <==> iters > 0 && iters % txDepth == 0
  {
    Outstanding(iters, txDepth);
    if iters > 0 {
      ModStep(iters - 1, txDepth);
    }
  }

  // Just before write number iters, a drain is due exactly when the queue is full.
  lemma DrainWhenFull(iters: nat, txDepth: nat)
    requires txDepth > 0
    ensures NumComplete(iters, txDepth) <= iters
    ensures iters - NumComplete(iters, txDepth) <= txDepth
    ensures DrainsBefore(iters, txDepth) <==> iters - NumComplete(iters, txDepth) == txDepth
  {
    Outstanding(iters, txDepth);
    if iters > 0 {
      ModStep(iters - 1, txDepth);
    }
  }

  // A write that finds room, and a drain of a full queue followed by a write.
  lemma WriteMay(b: Budget, p: seq<Instr>, x: Budget, txDepth: nat)
    requires txDepth > 0 && ClientPlan(b, p, txDepth) && x == Spent(b, p)
    requires x.rounds == x.controls && x.consumed <= x.posted + x.controls <= x.consumed + txDepth
    ensures x.posted + x.controls < x.consumed + txDepth ==>
              && ClientPlan(b, p + [] + [PostWrite], txDepth)
              && Spent(b, p + [] + [PostWrite]) == x.(posted := x.posted + 1)
    ensures x.posted + x.controls == x.consumed + txDepth ==>
              && ClientPlan(b, p + [Wait(txDepth)] + [PostWrite], txDepth)
              && Spent(b, p + [Wait(txDepth)] + [PostWrite])
                 == x.(posted := x.posted + 1, consumed := x.consumed + txDepth)
  {
    if x.posted + x.controls < x.consumed + txDepth {
      assert p + [] == p;
      OneMore(b, p, PostWrite, txDepth);
    } else {
      OneMore(b, p, Wait(txDepth), txDepth);
      OneMore(b, p + [Wait(txDepth)], PostWrite, txDepth);
    }
  }

  lemma {:induction false} WritesPlan(b: Budget, iters: nat, txDepth: nat)
    requires txDepth > 0 && Balanced(b)
    ensures ClientPlan(b, Writes(iters, txDepth), txDepth)
    ensures NumComplete(iters, txDepth) <= iters
    ensures Spent(b, Writes(iters, txDepth)) ==
            b.(posted := b.posted + iters, consumed := b.consumed + NumComplete(iters, txDepth))
  {
    if iters > 0 {
      WritesPlan(b, iters - 1, txDepth);
      DrainWhenFull(iters - 1, txDepth);
      var w := Writes(iters - 1, txDepth);
      hide ClientPlan, Spent;
      WriteMay(b, w, Spent(b, w), txDepth);
    }
  }

  lemma OneMore(b: Budget, p: seq<Instr>, x: Instr, txDepth: nat)
    requires ClientPlan(b, p, txDepth) && ClientMay(Spent(b, p), x, txDepth)
    ensures ClientPlan(b, p + [x], txDepth) && Spent(b, p + [x]) == Tick(Spent(b, p), x)
  {
    assert (p + [x])[..|p|] == p;
  }

  lemma TwoMore(b: Budget, p: seq<Instr>, x: Instr, y: Instr, txDepth: nat)
    requires ClientPlan(b, p, txDepth) && ClientMay(Spent(b, p), x, txDepth)
    requires ClientMay(Tick(Spent(b, p), x), y, txDepth)
    ensures ClientPlan(b, p + [x, y], txDepth) && Spent(b, p + [x, y]) == Tick(Tick(Spent(b, p), x), y)
  {
    OneMore(b, p, x, txDepth);
    OneMore(b, p + [x], y, txDepth);
    assert p + [x] + [y] == p + [x, y];
  }

  // One trial takes exactly iters + 2 completions for its iters + 1 posts and
  // the one answer, and ends with nothing outstanding.
  lemma TrialPlan(b: Budget, iters: nat, txDepth: nat)
    requires txDepth > 0 && Balanced(b)
    ensures ClientPlan(b, TrialClient(iters, txDepth), txDepth)
    ensures Spent(b, TrialClient(iters, txDepth)) == Later(b, iters + 1, 1)
  {
    WritesPlan(b, iters, txDepth);
    FullQueueExactly(iters, txDepth);
    TwoMore(b, Writes(iters, txDepth), PostControl, Wait(iters - NumComplete(iters, txDepth) + 2), txDepth);
  }

  lemma {:induction false} TrialsPlan(b: Budget, trials: nat, iters: nat, txDepth: nat)
    requires txDepth > 0 && Balanced(b)
    ensures ClientPlan(b, TrialsClient(trials, iters, txDepth), txDepth)
    ensures Spent(b, TrialsClient(trials, iters, txDepth)) == Later(b, trials * (iters + 1), trials)
  {
    if trials > 0 {
      TrialsPlan(b, trials - 1, iters, txDepth);
      var before := TrialsClient(trials - 1, iters, txDepth);
      TrialPlan(Spent(b, before), iters, txDepth);
      hide ClientPlan, Spent, TrialClient;
      ClientConcat(b, before, TrialClient(iters, txDepth), txDepth);
      SpentConcat(b, before, TrialClient(iters, txDepth));
      assert (trials - 1) * (iters + 1) + (iters + 1) == trials * (iters + 1);
    }
  }

  lemma {:induction false} LatencyClientPlan(b: Budget, iters: nat, txDepth: nat)
    requires txDepth > 0 && Balanced(b)
    ensures ClientPlan(b, LatencyClient(iters), txDepth)
    ensures Spent(b, LatencyClient(iters)) == Later(b, iters, iters)
  {
    if iters > 0 {
      LatencyClientPlan(b, iters - 1, txDepth);
      TwoMore(b, LatencyClient(iters - 1), PostControl, Wait(2), txDepth);
    }
  }

  lemma StaysBalanced(b: Budget, posts: nat, controls: nat)
    requires Balanced(b)
    ensures Balanced(Later(b, posts, controls))
  {
  }

  lemma BalancedAtFirst()
    ensures Balanced(NOTHING)
  {
  }

  // Three balanced stretches one after the other.
  lemma ThreeStretches(p: seq<Instr>, q: seq<Instr>, r: seq<Instr>, m: nat, n: nat, k: nat, i: nat, t: nat, j: nat,
                       txDepth: nat)
    requires ClientPlan(NOTHING, p, txDepth) && Spent(NOTHING, p) == Later(NOTHING, m, i)
    requires ClientPlan(Spent(NOTHING, p), q, txDepth) && Spent(Spent(NOTHING, p), q) == Later(Spent(NOTHING, p), n, t)
    requires ClientPlan(Spent(Spent(NOTHING, p), q), r, txDepth)
    requires Spent(Spent(Spent(NOTHING, p), q), r) == Later(Spent(Spent(NOTHING, p), q), k, j)
    ensures ClientPlan(NOTHING, p + q + r, txDepth)
    ensures Spent(NOTHING, p + q + r) == Later(NOTHING, m + n + k, i + t + j)
  {
    hide ClientPlan, Spent;
    ClientConcat(NOTHING, p, q, txDepth);
    SpentConcat(NOTHING, p, q);
    ClientConcat(NOTHING, p + q, r, txDepth);
    SpentConcat(NOTHING, p + q, r);
  }

  lemma RunClientPlan(warmup: nat, trials: nat, iters: nat, txDepth: nat)
    requires txDepth > 0
    ensures ClientPlan(NOTHING, RunClient(warmup, trials, iters, txDepth), txDepth)
    ensures Spent(NOTHING, RunClient(warmup, trials, iters, txDepth))
         == Later(NOTHING, warmup + trials * (iters + 1) + iters, warmup + trials + iters)
  {
    hide ClientPlan, Spent, LatencyClient, TrialsClient, Later, Balanced;
    var p, q, r := LatencyClient(warmup), TrialsClient(trials, iters, txDepth), LatencyClient(iters);
    var n := trials * (iters + 1);
    BalancedAtFirst();
    StaysBalanced(NOTHING, warmup, warmup);
    StaysBalanced(Later(NOTHING, warmup, warmup), n, trials);
    LatencyClientPlan(NOTHING, warmup, txDepth);
    TrialsPlan(Spent(NOTHING, p), trials, iters, txDepth);
    LatencyClientPlan(Spent(Spent(NOTHING, p), q), iters, txDepth);
    ThreeStretches(p, q, r, warmup, n, iters, warmup, trials, iters, txDepth);
  }

  // ----- the server --------------------------------------------------------------------------

  lemma ServerOneMore(b: Budget, p: seq<Instr>, x: Instr, rounds: nat)
    requires ServerPlan(b, p, rounds) && ServerMay(Spent(b, p), x, rounds)
    ensures ServerPlan(b, p + [x], rounds) && Spent(b, p + [x]) == Tick(Spent(b, p), x)
  {
    assert (p + [x])[..|p|] == p;
  }

  lemma ServerTwoMore(b: Budget, p: seq<Instr>, x: Instr, y: Instr, rounds: nat)
    requires ServerPlan(b, p, rounds) && ServerMay(Spent(b, p), x, rounds)
    requires ServerMay(Tick(Spent(b, p), x), y, rounds)
    ensures ServerPlan(b, p + [x, y], rounds) && Spent(b, p + [x, y]) == Tick(Tick(Spent(b, p), x), y)
  {
    ServerOneMore(b, p, x, rounds);
    ServerOneMore(b, p + [x], y, rounds);
    assert p + [x] + [y] == p + [x, y];
  }

  // A server between rounds: its replies are its posts, each accounted for twice.
  predicate ServerBalanced(b: Budget) {
    b.posted == b.controls && b.consumed == 2 * b.controls && b.rounds == b.controls
  }

  lemma {:induction false} LatencyServerOpenPlan(b: Budget, iters: nat, rounds: nat)
    requires iters > 0 && ServerBalanced(b) && b.controls + iters <= rounds
    ensures ServerPlan(b, LatencyServerOpen(iters), rounds)
    ensures var b' := Spent(b, LatencyServerOpen(iters));
            b'.posted == b'.controls == b.controls + iters && b'.consumed == 2 * b'.controls - 1
  {
    if iters == 1 {
      assert [] + [Wait(1), PostControl] == LatencyServerOpen(iters);
      ServerTwoMore(b, [], Wait(1), PostControl, rounds);
    } else {
      LatencyServerOpenPlan(b, iters - 1, rounds);
      ServerTwoMore(b, LatencyServerOpen(iters - 1), Wait(2), PostControl, rounds);
    }
  }

  lemma LatencyServerPlan(b: Budget, iters: nat, rounds: nat)
    requires ServerBalanced(b) && b.controls + iters <= rounds
    ensures ServerPlan(b, LatencyServer(iters), rounds)
    ensures Spent(b, LatencyServer(iters)) == Later(b, iters, iters)
  {
    if iters > 0 {
      LatencyServerOpenPlan(b, iters, rounds);
      ServerOneMore(b, LatencyServerOpen(iters), Wait(1), rounds);
    }
  }

  lemma {:induction false} TrialsServerPlan(b: Budget, trials: nat, rounds: nat)
    requires ServerBalanced(b) && b.controls + trials <= rounds
    ensures ServerPlan(b, TrialsServer(trials), rounds)
    ensures Spent(b, TrialsServer(trials)) == Later(b, trials, trials)
  {
    if trials > 0 {
      TrialsServerPlan(b, trials - 1, rounds);
      var before := TrialsServer(trials - 1);
      assert before + [Wait(1), PostControl] + [Wait(1)] == TrialsServer(trials);
      hide ServerPlan, Spent;
      ServerTwoMore(b, before, Wait(1), PostControl, rounds);
      ServerOneMore(b, before + [Wait(1), PostControl], Wait(1), rounds);
    }
  }

  lemma RunServerPlan(warmup: nat, trials: nat, iters: nat)
    ensures ServerPlan(NOTHING, RunServer(warmup, trials, iters), warmup + trials + iters)
    ensures Spent(NOTHING, RunServer(warmup, trials, iters))
         == Later(NOTHING, warmup + trials + iters, warmup + trials + iters)
  {
    hide ServerPlan, Spent, LatencyServer, TrialsServer;
    var rounds := warmup + trials + iters;
    var p, q, r := LatencyServer(warmup), TrialsServer(trials), LatencyServer(iters);
    LatencyServerPlan(NOTHING, warmup, rounds);
    TrialsServerPlan(Spent(NOTHING, p), trials, rounds);
    ServerConcat(NOTHING, p, q, rounds);
    SpentConcat(NOTHING, p, q);
    LatencyServerPlan(Spent(NOTHING, p + q), iters, rounds);
    ServerConcat(NOTHING, p + q, r, rounds);
    SpentConcat(NOTHING, p + q, r);
  }
}
