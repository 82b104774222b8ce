// Taking completions from a completion queue, and keeping the receive queue
// filled. The adapter decides how many completions each poll finds ready; what
// the callers get does not depend on it.
module Credits {

  // REFILL_RWR_THRES in the key-value store and in the bandwidth test.
  const REFILL_THRESHOLD: nat := 10
  const BENCHMARK_REFILL_THRESHOLD: nat := 100

  // The count of posted receives after one of them has been polled: at the
  // threshold or below it the queue is filled up again.
  function AfterPoll(routs: int, rxDepth: nat, threshold: int): int {
    if routs - 1 <= threshold then rxDepth else routs - 1
  }

  // The receives the refill posts when `left` are still in the queue.
  function Refill(left: int, rxDepth: nat, threshold: int): int {
    if left <= threshold then rxDepth - left else 0
  }

  // A poll uses up one credit, and the refill gives back what it posts. Above
  // the threshold nothing is posted and the count goes down by one each time.
  lemma CreditSteps(routs: int, rxDepth: nat, threshold: int)
    ensures AfterPoll(routs, rxDepth, threshold) == routs - 1 + Refill(routs - 1, rxDepth, threshold)
    ensures routs >= threshold + 2 ==> AfterPoll(routs, rxDepth, threshold) == routs - 1
    ensures routs <= threshold + 1 ==> AfterPoll(routs, rxDepth, threshold) == rxDepth
  {
  }

  // n polls in a row.
  function AfterPolls(routs: int, n: nat, rxDepth: nat, threshold: int): int {
    if n == 0 then routs else AfterPoll(AfterPolls(routs, n - 1, rxDepth, threshold), rxDepth, threshold)
  }

  // A full queue counts down to one above the threshold, and the next poll fills
  // it up again: one refill, of all the polled receives, in every rxDepth - threshold polls.
  lemma {:induction false} CountsDown(n: nat, rxDepth: nat, threshold: nat)
    requires rxDepth > threshold && n <= rxDepth - threshold
    ensures AfterPolls(rxDepth, n, rxDepth, threshold) == if n == rxDepth - threshold then rxDepth else rxDepth - n
  {
    if n > 0 {
      CountsDown(n - 1, rxDepth, threshold);
    }
  }

  // With the depths and thresholds the programs are built with, 100 and 10 in the
  // store, 5000 and 100 in the bandwidth test.
  lemma CreditsOfPrograms()
    ensures AfterPolls(100, 89, 100, REFILL_THRESHOLD) == 11 && AfterPolls(100, 90, 100, REFILL_THRESHOLD) == 100
    ensures AfterPolls(5000, 4899, 5000, BENCHMARK_REFILL_THRESHOLD) == 101
    ensures AfterPolls(5000, 4900, 5000, BENCHMARK_REFILL_THRESHOLD) == 5000
  {
    hide AfterPolls;
    CountsDown(89, 100, REFILL_THRESHOLD);
    CountsDown(90, 100, REFILL_THRESHOLD);
    CountsDown(4899, 5000, BENCHMARK_REFILL_THRESHOLD);
    CountsDown(4900, 5000, BENCHMARK_REFILL_THRESHOLD);
  }

  // The count stays above the threshold exactly when the queue is deeper than
  // it; a shallower queue, even of depth 1, is filled up by every poll.
  lemma CreditBounds(rxDepth: nat, threshold: nat)
    requires rxDepth >= 1
    ensures (forall routs | 1 <= routs <= rxDepth :: threshold < AfterPoll(routs, rxDepth, threshold) <= rxDepth)
            <==> rxDepth > threshold
    ensures rxDepth <= threshold + 1 ==>
              forall routs | 1 <= routs <= rxDepth :: AfterPoll(routs, rxDepth, threshold) == rxDepth
  {
    assert AfterPoll(1, rxDepth, threshold) == rxDepth;
  }
}

module Polling {
  import opened Credits

  const WC_BATCH: nat := 10

  datatype Opcode = SendWc | WriteWc | ReadWc | ReceiveWc | OtherWc

  datatype Completion = Completion(success: bool, opcode: Opcode, wrId: int)

  datatype Outcome = Done | Failed | StillWaiting

  predicate GoodSend(wc: Completion) {
    wc.success && (wc.opcode.SendWc? || wc.opcode.WriteWc? || wc.opcode.ReadWc?)
  }

  predicate AllGoodSends(s: seq<Completion>) {
    forall i | 0 <= i < |s| :: GoodSend(s[i])
  }

  function Min(a: int, b: int): int {
    if a < b then a else b
  }

  // `pending` is every completion still to be taken, in queue order; `polls`
  // says how many of them each coming poll finds ready, or that it fails.
  class CompletionQueue {
    var pending: seq<Completion>
    var polls: seq<int>

    method Poll(num: nat) returns (ne: int, wc: seq<Completion>)
      requires num <= WC_BATCH  // as many as the caller has room for
      modifies this
      ensures polls == if old(polls) == [] then [] else old(polls)[1..]
      ensures old(pending) == wc + pending
      ensures ne < 0 <==> old(polls) != [] && old(polls)[0] < 0
      ensures ne < 0 ==> wc == []
      ensures ne >= 0 ==>
                ne == |wc| == if old(polls) == [] then 0 else Min(old(polls)[0], Min(num, |old(pending)|))
    {
      if polls == [] {
        return 0, [];
      }
      ne := if polls[0] < 0 then -1 else Min(polls[0], Min(num, |pending|));
      polls := polls[1..];
      if ne < 0 {
        return ne, [];
      }
      wc := pending[..ne];
      pending := pending[ne..];
    }
  }

  predicate IsSuffix(s: seq<int>, t: seq<int>) {
    |s| <= |t| && s == t[|t| - |s|..]
  }

  // Of the polls that were to come, those made by now include a failed one.
  predicate SomeFailed(before: seq<int>, now: seq<int>) {
    exists i :: 0 <= i < |before| - |now| && before[i] < 0
  }

  lemma NoPolls(polls: seq<int>)
    ensures IsSuffix(polls, polls) && !SomeFailed(polls, polls)
  {
  }

  lemma OnePoll(now: seq<int>, before: seq<int>)
    requires IsSuffix(now, before) && now != []
    ensures IsSuffix(now[1..], before)
    ensures SomeFailed(before, now[1..]) <==> SomeFailed(before, now) || now[0] < 0
  {
    assert before[|before| - |now|] == now[0];
    if now[0] < 0 {
      assert SomeFailed(before, now[1..]);
    }
  }

  lemma AllGoodSendsConcat(s: seq<Completion>, t: seq<Completion>)
    ensures AllGoodSends(s + t) <==> AllGoodSends(s) && AllGoodSends(t)
  {
    assert forall i | 0 <= i < |s| :: (s + t)[i] == s[i];
    assert forall i | 0 <= i < |t| :: (s + t)[|s| + i] == t[i];
  }

  // Sends, writes and reads are counted if they succeeded; anything else ends
  // the call.
  lemma GoodSends(s: seq<Completion>)
    ensures AllGoodSends(s) <==>
            forall wc | wc in s :: wc.success && (wc.opcode.SendWc? || wc.opcode.WriteWc? || wc.opcode.ReadWc?)
    ensures !AllGoodSends(s) <==> exists wc | wc in s :: !wc.success || wc.opcode.ReceiveWc? || wc.opcode.OtherWc?
  {
  }

  // The loop over one batch.
  method CountSends(wc: seq<Completion>) returns (completed: nat, ok: bool)
    ensures ok <==> AllGoodSends(wc)
    ensures ok ==> completed == |wc|
  {
    completed, ok := 0, true;
    for i := 0 to |wc|
      invariant completed == i && forall j | 0 <= j < i :: GoodSend(wc[j])
    {
      if !wc[i].success {
        return completed, false;
      }
      if wc[i].opcode.SendWc? || wc[i].opcode.WriteWc? || wc[i].opcode.ReadWc? {
        completed := completed + 1;
      } else {
        return completed, false;
      }
    }
  }

  // poll_n_send_wc: takes exactly n completions in queue order, however the
  // adapter splits them into batches; or it has met a failed poll or a bad
  // completion; or the polls so far have not found enough.
  method PollSends(cq: CompletionQueue, n: nat) returns (outcome: Outcome, ghost taken: seq<Completion>)
    modifies cq
    ensures old(cq.pending) == taken + cq.pending && |taken| <= n && IsSuffix(cq.polls, old(cq.polls))
    ensures outcome.Done? ==> |taken| == n
    ensures outcome.StillWaiting? ==> |taken| < n && cq.polls == []
    ensures !outcome.Failed? ==>
              forall wc | wc in taken :: wc.success && (wc.opcode.SendWc? || wc.opcode.WriteWc? || wc.opcode.ReadWc?)
    ensures outcome.Failed? <==>
            || SomeFailed(old(cq.polls), cq.polls)
            || exists wc | wc in taken :: !wc.success || wc.opcode.ReceiveWc? || wc.opcode.OtherWc?
  {
    hide IsSuffix, SomeFailed, AllGoodSends;
    var completed := 0;
    taken := [];
    GoodSends([]);
    NoPolls(cq.polls);
    while completed < n
      invariant old(cq.pending) == taken + cq.pending && completed == |taken| <= n && AllGoodSends(taken)
      invariant IsSuffix(cq.polls, old(cq.polls)) && !SomeFailed(old(cq.polls), cq.polls)
      decreases |cq.polls|
    {
      GoodSends(taken);
      if cq.polls == [] {
        return StillWaiting, taken;
      }
      var num := if WC_BATCH > n - completed then n - completed else WC_BATCH;
      OnePoll(cq.polls, old(cq.polls));
      var ne, wc := cq.Poll(num);
      if ne < 0 {
        return Failed, taken;
      }
      AllGoodSendsConcat(taken, wc);
      taken := taken + wc;
      GoodSends(taken);
      var sends, ok := CountSends(wc);
      if !ok {
        return Failed, taken;
      }
      completed := completed + sends;
    }
    GoodSends(taken);
    return Done, taken;
  }

  // ----- the receive queue of the key-value connection -------------------------------

  datatype Receipt = Received | Nothing | Problem | Waiting

  // None of the polls finds a completion.
  predicate NoneReady(polls: seq<int>) {
    forall i | 0 <= i < |polls| :: polls[i] <= 0
  }

  lemma NoneReadySteps(polls: seq<int>)
    ensures NoneReady([])
    ensures polls != [] && polls[0] <= 0 && NoneReady(polls[1..]) ==> NoneReady(polls)
  {
    assert forall i | 1 <= i < |polls| :: polls[i] == polls[1..][i - 1];
  }

  class ReceiveQueue {
    const rxDepth: nat
    const cq: CompletionQueue
    var routs: int
    var room: nat  // how many more receives the adapter will accept
    ghost var outstanding: int  // receives posted and not yet polled

    ghost predicate Valid()
      reads this
    {
      routs == outstanding && 0 <= routs <= rxDepth
    }

    constructor (rxDepth: nat, cq: CompletionQueue, room: nat)
      ensures this.rxDepth == rxDepth && this.cq == cq && this.room == room && routs == 0 && Valid()
    {
      this.rxDepth, this.cq, this.room := rxDepth, cq, room;
      routs, outstanding := 0, 0;
    }

    // pp_post_recv: fills the queue up, or leaves the count as it was when a
    // post fails (although some posts may have gone through).
    method PostReceives() returns (ok: bool)
      requires routs <= rxDepth
      modifies this
      ensures ok <==> rxDepth - old(routs) <= old(room)
      ensures ok ==> routs == rxDepth
      ensures !ok ==> routs == old(routs)
      ensures outstanding == old(outstanding) + old(room) - room
      ensures room == if ok then old(room) - (rxDepth - old(routs)) else 0
    {
      for i := 0 to rxDepth - routs
        invariant routs == old(routs) && room == old(room) - i && outstanding == old(outstanding) + i
      {
        if room == 0 {
          return false;
        }
        room, outstanding := room - 1, outstanding + 1;
      }
      routs := rxDepth;
      return true;
    }

    // The blocking loop: it goes on over failed polls until one finds a completion,
    // or, with 0, the given polls have found none.
    method AwaitOne() returns (ne: int, wc: seq<Completion>)
      modifies cq
      ensures old(cq.pending) == wc + cq.pending && ne == |wc| <= 1
      ensures ne == 0 ==> cq.polls == [] && (old(cq.pending) == [] || NoneReady(old(cq.polls)))
    {
      hide NoneReady;
      while true
        invariant cq.pending == old(cq.pending)
        invariant NoneReady(cq.polls) && cq.pending != [] ==> NoneReady(old(cq.polls))
        decreases |cq.polls|
      {
        if cq.polls == [] {
          NoneReadySteps([]);
          return 0, [];
        }
        NoneReadySteps(cq.polls);
        ne, wc := cq.Poll(1);
        if ne >= 1 {
          return;
        }
      }
    }

    // poll_next_receive_wc. A blocking call polls on over failed polls; a
    // non-blocking one reports them.
    method PollNext(blocking: bool) returns (receipt: Receipt)
      requires Valid()
      modifies this, cq
      ensures cq.pending == old(cq.pending) || (old(cq.pending) != [] && cq.pending == old(cq.pending)[1..])
      ensures outstanding == old(outstanding) - (|old(cq.pending)| - |cq.pending|) + (old(room) - room)
      ensures receipt.Received? ==>
                && old(cq.pending) != [] && old(cq.pending)[0].success && old(cq.pending)[0].opcode.ReceiveWc?
                && cq.pending == old(cq.pending)[1..]
                && Valid() && routs + room == old(routs) + old(room) - 1
                && routs == (if old(routs) <= 11 then rxDepth else old(routs) - 1)
                && routs == AfterPoll(old(routs), rxDepth, REFILL_THRESHOLD)
      ensures receipt.Nothing? || receipt.Waiting? ==>
                cq.pending == old(cq.pending) && routs == old(routs) && room == old(room) && Valid()
      ensures receipt.Nothing? ==> !blocking
      ensures receipt.Waiting? ==>
                && blocking && cq.polls == []
                && (old(cq.pending) == [] || NoneReady(old(cq.polls)))
      ensures receipt.Problem? ==>
                || (!blocking && old(cq.polls) != [] && old(cq.polls)[0] < 0 && cq.pending == old(cq.pending))
                || (&& old(cq.pending) != [] && !(old(cq.pending)[0].success && old(cq.pending)[0].opcode.ReceiveWc?)
                    && routs == old(routs) && room == old(room))
                || (old(routs) <= 11 && old(room) + old(routs) < rxDepth + 1 && routs == old(routs) - 1 && room == 0)
      ensures (&& old(cq.pending) != [] && old(cq.pending)[0].success && old(cq.pending)[0].opcode.ReceiveWc?
               && old(cq.polls) != [] && old(cq.polls)[0] > 0 && old(room) + old(routs) > rxDepth)
              ==> receipt.Received?
    {
      var ne, wc;
      if blocking {
        ne, wc := AwaitOne();
        if ne == 0 {
          return Waiting;
        }
      } else {
        ne, wc := cq.Poll(1);
        if ne == 0 {
          return Nothing;
        }
      }
      if ne < 0 {
        return Problem;
      }
      outstanding := outstanding - 1;
      if !wc[0].success {
        return Problem;
      }
      if wc[0].opcode.ReceiveWc? {
        routs := routs - 1;
      } else {
        return Problem;
      }
      if routs <= REFILL_THRESHOLD {
        var ok := PostReceives();
        if !ok {
          return Problem;
        }
      }
      return Received;
    }
  }

  // ----- the one completion queue of the bandwidth test -----------------------------------

  // PINGPONG_RECV_WRID and PINGPONG_SEND_WRID of the bandwidth test, which tells
  // the two kinds of completion apart by them; writes carry that of a send.
  const RECV_WRID: int := 1
  const SEND_WRID: int := 2

  predicate Counted(wc: Completion) {
    wc.success && (wc.wrId == SEND_WRID || wc.wrId == RECV_WRID)
  }

  predicate AllCounted(s: seq<Completion>) {
    forall i | 0 <= i < |s| :: Counted(s[i])
  }

  // How many completions of s carry the identifier.
  function WithId(s: seq<Completion>, id: int): (n: nat)
    ensures n <= |s|
  {
    if s == [] then 0 else WithId(s[..|s| - 1], id) + (if s[|s| - 1].wrId == id then 1 else 0)
  }

  lemma {:induction false} WithIdConcat(s: seq<Completion>, t: seq<Completion>, id: int)
    ensures WithId(s + t, id) == WithId(s, id) + WithId(t, id)
  {
    if t == [] {
      assert s + t == s;
    } else {
      WithIdConcat(s, t[..|t| - 1], id);
      assert (s + t)[..|s + t| - 1] == s + t[..|t| - 1];
    }
  }

  lemma WithIdStep(s: seq<Completion>, i: nat, id: int)
    requires i < |s|
    ensures WithId(s[..i + 1], id) == WithId(s[..i], id) + (if s[i].wrId == id then 1 else 0)
  {
    assert s[..i + 1][..i] == s[..i];
  }

  lemma AllCountedConcat(s: seq<Completion>, t: seq<Completion>)
    ensures AllCounted(s + t) <==> AllCounted(s) && AllCounted(t)
  {
    assert forall i | 0 <= i < |s| :: (s + t)[i] == s[i];
    assert forall i | 0 <= i < |t| :: (s + t)[|s| + i] == t[i];
  }

  // Successful completions with one of the two identifiers are counted; anything
  // else ends the call.
  lemma CountedMeans(s: seq<Completion>)
    ensures AllCounted(s) <==> forall wc | wc in s :: wc.success && (wc.wrId == 1 || wc.wrId == 2)
    ensures !AllCounted(s) <==> exists wc | wc in s :: !wc.success || (wc.wrId != 1 && wc.wrId != 2)
  {
  }

  // The count of posted receives after taking the completions of s in order.
  function CreditsAfter(routs: int, s: seq<Completion>, rxDepth: nat): int {
    if s == [] then routs
    else
      var r := CreditsAfter(routs, s[..|s| - 1], rxDepth);
      if s[|s| - 1].wrId == RECV_WRID then AfterPoll(r, rxDepth, BENCHMARK_REFILL_THRESHOLD) else r
  }

  lemma CreditsStep(routs: int, before: seq<Completion>, wc: seq<Completion>, i: nat, rxDepth: nat)
    requires i < |wc|
    ensures var r := CreditsAfter(routs, before + wc[..i], rxDepth);
            CreditsAfter(routs, before + wc[..i + 1], rxDepth)
            == if wc[i].wrId == RECV_WRID then AfterPoll(r, rxDepth, BENCHMARK_REFILL_THRESHOLD) else r
  {
    assert (before + wc[..i + 1])[..|before| + i] == before + wc[..i];
  }

  // Whatever is taken, in whatever order, there is a posted receive left.
  lemma {:induction false} CreditsStay(routs: int, s: seq<Completion>, rxDepth: nat)
    requires 1 <= routs <= rxDepth
    ensures 1 <= CreditsAfter(routs, s, rxDepth) <= rxDepth
  {
    if s != [] {
      CreditsStay(routs, s[..|s| - 1], rxDepth);
    }
  }

  class BenchmarkContext {
    const rxDepth: nat
    const cq: CompletionQueue
    var routs: int
    var room: nat
    ghost var outstanding: int  // receives posted whose completions have not been taken

    ghost predicate Valid()
      reads this
    {
      routs == outstanding && routs <= rxDepth
    }

    constructor (rxDepth: nat, cq: CompletionQueue, room: nat)
      ensures this.rxDepth == rxDepth && this.cq == cq && this.room == room && routs == 0 && Valid()
    {
      this.rxDepth, this.cq, this.room := rxDepth, cq, room;
      routs, outstanding := 0, 0;
    }

    // pp_post_recv: posts up to n receives and says how many the adapter took.
    method PostReceives(n: nat) returns (i: nat)
      modifies this`room, this`outstanding
      ensures i == (if n <= old(room) then n else old(room))
      ensures room == old(room) - i && outstanding == old(outstanding) + i
    {
      i := 0;
      while i < n
        invariant i <= n && room == old(room) - i && outstanding == old(outstanding) + i
      {
        if room == 0 {
          break;
        }
        room, outstanding := room - 1, outstanding + 1;
        i := i + 1;
      }
    }

    // One receive completion of pp_wait_completions.
    method CountReceive() returns (ok: bool)
      requires routs <= rxDepth
      modifies this
      ensures routs <= rxDepth
      ensures ok ==> routs == (if old(routs) <= 101 then rxDepth else old(routs) - 1)
      ensures room + routs == old(room) + old(routs) - 1
      ensures outstanding == old(outstanding) + old(room) - room
      ensures !ok ==> old(room) + old(routs) < rxDepth + 1
    {
      routs := routs - 1;
      if routs <= BENCHMARK_REFILL_THRESHOLD {
        var posted := PostReceives(rxDepth - routs);
        routs := routs + posted;
        if routs < rxDepth {
          return false;
        }
      }
      return true;
    }

    // The switch over one batch of completions; `done` of them were dealt with.
    method CountBatch(ghost before: seq<Completion>, ghost routs0: int, wc: seq<Completion>)
      returns (ok: bool, sends: nat, receives: nat, ghost done: nat)
      requires routs <= rxDepth && routs == CreditsAfter(routs0, before, rxDepth)
      modifies this
      ensures routs <= rxDepth && done <= |wc|
      ensures routs + room == old(routs) + old(room) - WithId(wc[..done], RECV_WRID)
      ensures outstanding == old(outstanding) + old(room) - room
      ensures ok ==> done == |wc| && AllCounted(wc) && routs == CreditsAfter(routs0, before + wc, rxDepth)
      ensures ok ==> sends == WithId(wc, SEND_WRID) && receives == WithId(wc, RECV_WRID)
      ensures ok ==> sends + receives == |wc|
      ensures !ok ==> !AllCounted(wc) || old(room) + old(routs) < rxDepth + |wc|
    {
      hide CreditsAfter, WithId;
      sends, receives, done := 0, 0, 0;
      assert before + wc[..0] == before;
      NoneWithId(wc[..0]);
      for i := 0 to |wc|
        invariant done == i && forall j | 0 <= j < i :: Counted(wc[j])
        invariant sends == WithId(wc[..i], SEND_WRID) && receives == WithId(wc[..i], RECV_WRID) && sends + receives == i
        invariant room + routs == old(room) + old(routs) - receives
        invariant outstanding == old(outstanding) + old(room) - room
        invariant routs <= rxDepth && routs == CreditsAfter(routs0, before + wc[..i], rxDepth)
      {
        CreditsStep(routs0, before, wc, i, rxDepth);
        WithIdStep(wc, i, SEND_WRID);
        WithIdStep(wc, i, RECV_WRID);
        if !wc[i].success {
          assert !Counted(wc[i]);
          return false, sends, receives, done;
        }
        if wc[i].wrId == SEND_WRID {
          sends := sends + 1;
        } else if wc[i].wrId == RECV_WRID {
          var counted := CountReceive();
          if !counted {
            return false, sends, receives, i + 1;
          }
          receives := receives + 1;
        } else {
          assert !Counted(wc[i]);
          return false, sends, receives, done;
        }
        done := done + 1;
      }
      assert wc[..|wc|] == wc;
      ok := true;
    }

    // One poll of pp_wait_completions and what it finds. The adapter has used
    // up a receive for each receive completion it hands over.
    method TakeBatch(num: nat, ghost before: seq<Completion>, ghost routs0: int)
      returns (outcome: Outcome, sends: nat, receives: nat, ghost wc: seq<Completion>, ghost done: nat)
      requires routs <= rxDepth && routs == CreditsAfter(routs0, before, rxDepth) && cq.polls != [] && num <= WC_BATCH
      modifies this, cq
      ensures routs <= rxDepth && cq.polls == old(cq.polls)[1..] && !outcome.StillWaiting?
      ensures old(cq.pending) == wc + cq.pending && |wc| <= num && done <= |wc|
      ensures routs + room == old(routs) + old(room) - WithId(wc[..done], RECV_WRID)
      ensures outstanding + room == old(outstanding) + old(room) - WithId(wc, RECV_WRID)
      ensures outcome.Done? ==>
                && done == |wc| && AllCounted(wc) && routs == CreditsAfter(routs0, before + wc, rxDepth)
                && sends == WithId(wc, SEND_WRID) && receives == WithId(wc, RECV_WRID) && sends + receives == |wc|
      ensures outcome.Done? ==> old(cq.polls)[0] >= 0
      ensures !outcome.Done? ==>
                || (old(cq.polls)[0] < 0 && wc == [])
                || !AllCounted(wc)
                || old(room) + old(routs) < rxDepth + |wc|
    {
      hide CreditsAfter;
      var ne, batch := cq.Poll(num);
      wc := batch;
      if ne < 0 {
        return Failed, 0, 0, wc, 0;
      }
      outstanding := outstanding - WithId(wc, RECV_WRID);
      var ok: bool;
      ok, sends, receives, done := CountBatch(before, routs0, batch);
      outcome := if ok then Done else Failed;
    }

    // pp_wait_completions: takes exactly n completions, of either kind, in queue
    // order, and keeps the receive queue filled between them. `done` of those it
    // took were dealt with; a failure drops the rest of its batch.
    method WaitCompletions(n: nat)
      returns (outcome: Outcome, scnt: nat, rcnt: nat, ghost taken: seq<Completion>, ghost done: nat)
      requires Valid()
      modifies this, cq
      ensures old(cq.pending) == taken + cq.pending && |taken| <= n && IsSuffix(cq.polls, old(cq.polls))
      ensures outcome.Done? ==> |taken| == n
      ensures outcome.StillWaiting? ==> |taken| < n && cq.polls == []
      ensures !outcome.Failed? ==>
                && (forall wc | wc in taken :: wc.success && (wc.wrId == 1 || wc.wrId == 2))
                && scnt == WithId(taken, 2) && rcnt == WithId(taken, 1) && scnt + rcnt == |taken|
                && routs == CreditsAfter(old(routs), taken, rxDepth)
                && done == |taken| && Valid()
      ensures !outcome.Failed? && old(routs) >= 1 ==> routs >= 1
      ensures done <= |taken| && routs <= rxDepth
      ensures outstanding + room == old(outstanding) + old(room) - WithId(taken, 1)
      ensures routs + room == old(routs) + old(room) - WithId(taken[..done], 1)
      ensures routs - outstanding == WithId(taken[done..], 1)
      ensures outcome.Failed? ==>
                || SomeFailed(old(cq.polls), cq.polls)
                || (exists wc | wc in taken :: !wc.success || (wc.wrId != 1 && wc.wrId != 2))
                || old(room) + old(routs) < rxDepth + n
      ensures SomeFailed(old(cq.polls), cq.polls) ==> outcome.Failed?
      ensures (exists wc | wc in taken :: !wc.success || (wc.wrId != 1 && wc.wrId != 2)) ==> outcome.Failed?
    {
      hide SomeFailed, IsSuffix, WithId, AllCounted, CreditsAfter;
      scnt, rcnt, taken, done, outcome := 0, 0, [], 0, Done;
      NoPolls(cq.polls);
      NothingTaken(old(routs), rxDepth);
      while rcnt + scnt < n
        invariant old(cq.pending) == taken + cq.pending && scnt + rcnt == |taken| == done <= n && AllCounted(taken)
        invariant scnt == WithId(taken, SEND_WRID) && rcnt == WithId(taken, RECV_WRID)
        invariant routs <= rxDepth && routs == CreditsAfter(old(routs), taken, rxDepth)
        invariant room + routs == old(room) + old(routs) - rcnt && outstanding == routs
        invariant IsSuffix(cq.polls, old(cq.polls)) && !SomeFailed(old(cq.polls), cq.polls)
        decreases |cq.polls|
      {
        if cq.polls == [] {
          outcome := StillWaiting;
          break;
        }
        var num := if WC_BATCH > n - rcnt - scnt then n - rcnt - scnt else WC_BATCH;
        OnePoll(cq.polls, old(cq.polls));
        ghost var before := taken;
        var result, sends, receives, wc, d := TakeBatch(num, taken, old(routs));
        taken, done := before + wc, |before| + d;
        Appended(before, wc, d);
        if !result.Done? {
          CountedMeans(taken);
          outcome := Failed;
          return;
        }
        scnt, rcnt := scnt + sends, rcnt + receives;
      }
      Stay(old(routs), taken, rxDepth);
      AllDone(taken);
    }
  }

  lemma NoneWithId(s: seq<Completion>)
    requires s == []
    ensures forall id :: WithId(s, id) == 0
  {
  }

  lemma NothingTaken(routs: int, rxDepth: nat)
    ensures AllCounted([]) && CreditsAfter(routs, [], rxDepth) == routs
    ensures WithId([], SEND_WRID) == WithId([], RECV_WRID) == 0
  {
  }

  lemma AllDone(taken: seq<Completion>)
    ensures taken[..|taken|] == taken && WithId(taken[|taken|..], RECV_WRID) == 0
    ensures AllCounted(taken) <==> forall wc | wc in taken :: wc.success && (wc.wrId == 1 || wc.wrId == 2)
  {
    CountedMeans(taken);
  }

  // A batch behind what was taken before, of which d were dealt with.
  lemma Appended(before: seq<Completion>, wc: seq<Completion>, d: nat)
    requires d <= |wc|
    ensures var taken, done := before + wc, |before| + d;
            && (AllCounted(taken) <==> AllCounted(before) && AllCounted(wc))
            && WithId(taken, SEND_WRID) == WithId(before, SEND_WRID) + WithId(wc, SEND_WRID)
            && WithId(taken, RECV_WRID) == WithId(before, RECV_WRID) + WithId(wc, RECV_WRID)
            && WithId(taken[..done], RECV_WRID) == WithId(before, RECV_WRID) + WithId(wc[..d], RECV_WRID)
            && WithId(taken[done..], RECV_WRID) == WithId(wc, RECV_WRID) - WithId(wc[..d], RECV_WRID)
  {
    hide AllCounted, WithId;
    AllCountedConcat(before, wc);
    WithIdConcat(before, wc, SEND_WRID);
    WithIdConcat(before, wc, RECV_WRID);
    WithIdConcat(before, wc[..d], RECV_WRID);
    WithIdConcat(wc[..d], wc[d..], RECV_WRID);
    assert wc[..d] + wc[d..] == wc;
    assert (before + wc)[..|before| + d] == before + wc[..d];
    assert (before + wc)[|before| + d..] == wc[d..];
  }

  lemma Stay(routs: int, s: seq<Completion>, rxDepth: nat)
    requires routs <= rxDepth
    ensures routs >= 1 ==> CreditsAfter(routs, s, rxDepth) >= 1
  {
    if routs >= 1 {
      CreditsStay(routs, s, rxDepth);
    }
  }
}
