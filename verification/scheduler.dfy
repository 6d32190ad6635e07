/** The staggered spawn schedule of `startBots` (index.js:687-706): slot
    `i` waits 2000 ms per completed batch of five, 300 ms per earlier slot in
    its own batch, plus a jitter below 200 ms, capped at the largest delay a
    timer accepts. */
module Scheduler {

  const BatchSize: nat := 5
  const BatchStagger: nat := 2000
  const IntraBatchDelay: nat := 300
  /** `Math.random() * 200` is modelled by its floor, a whole number below
      this bound. */
  const JitterBound: nat := 200
  /** 2^31 - 1, the cap applied before flooring. */
  const MaxDelay: nat := 2147483647

  /** Number of slots `startBots(count)` schedules: none for a count that
      is zero, negative or `NaN || 0`. */
  function SlotCount(count: int): nat {
    if count > 0 then count else 0
  }

  /** The batch a slot belongs to. */
  function BatchOf(i: nat): nat {
    i / BatchSize
  }

  /** The delay before slot `i`'s attempt, given its jitter. Because the
      uncapped delay is a whole number plus the jitter,
      `floor(min(base + r, cap))` equals `min(base + floor(r), cap)`. */
  function SlotDelay(i: nat, jitter: nat): (d: nat)
    requires jitter < JitterBound
    ensures d <= MaxDelay
  {
    var raw := BatchOf(i) * BatchStagger + (i % BatchSize) * IntraBatchDelay + jitter;
    if raw <= MaxDelay then raw else MaxDelay
  }

  /** Below the cap, a slot fires inside its batch's window: no earlier
      than the batch start and at least 600 ms before the next batch
      starts, so batches never overlap. */
  lemma SlotInBatchWindow(i: nat, jitter: nat)
    requires jitter < JitterBound
    requires SlotDelay(i, jitter) < MaxDelay
    ensures BatchOf(i) * BatchStagger <= SlotDelay(i, jitter)
    ensures SlotDelay(i, jitter) + 600 < (BatchOf(i) + 1) * BatchStagger
  {
  }

  /** Slot positions compare by batch first, then by place in the batch. */
  lemma SlotOrder(i: nat, k: nat)
    requires i < k
    ensures BatchOf(i) < BatchOf(k) || (BatchOf(i) == BatchOf(k) && i % BatchSize < k % BatchSize)
  {
    assert i == BatchSize * BatchOf(i) + i % BatchSize;
    assert k == BatchSize * BatchOf(k) + k % BatchSize;
  }

  /** A later slot never fires before an earlier one, and strictly after
      it while the cap is not reached: the jitter (under 200 ms) is smaller
      than every gap between slots (300 ms inside a batch, at least 800 ms
      across batches). */
  lemma SlotDelayIncreasing(i: nat, k: nat, ji: nat, jk: nat)
    requires i < k && ji < JitterBound && jk < JitterBound
    ensures SlotDelay(i, ji) <= SlotDelay(k, jk)
    ensures SlotDelay(k, jk) < MaxDelay ==> SlotDelay(i, ji) < SlotDelay(k, jk)
  {
    SlotOrder(i, k);
    if BatchOf(i) < BatchOf(k) {
      assert BatchOf(i) * BatchStagger + BatchStagger <= BatchOf(k) * BatchStagger;
    }
  }

  /** The delays of one `startBots(count)` call, slot by slot, each the
      slot's own delay for its jitter. They never exceed the cap, never
      decrease from one slot to the next, and strictly increase up to the
      first slot that reaches the cap. */
  function Delays(count: int, jitters: seq<nat>): (ds: seq<nat>)
    requires |jitters| == SlotCount(count)
    requires forall k :: 0 <= k < |jitters| ==> jitters[k] < JitterBound
    ensures |ds| == SlotCount(count)
    ensures forall i :: 0 <= i < |ds| ==> ds[i] == SlotDelay(i, jitters[i])
    ensures forall i :: 0 <= i < |ds| ==> ds[i] <= MaxDelay
    ensures forall i, k :: 0 <= i < k < |ds| ==> ds[i] <= ds[k]
    ensures forall i, k :: 0 <= i < k < |ds| && ds[k] < MaxDelay ==> ds[i] < ds[k]
  {
    var ds := seq(|jitters|, i requires 0 <= i < |jitters| => SlotDelay(i, jitters[i]));
    assert forall i, k :: 0 <= i < k < |ds| ==> ds[i] <= ds[k] && (ds[k] < MaxDelay ==> ds[i] < ds[k]) by {
      forall i, k | 0 <= i < k < |ds| ensures ds[i] <= ds[k] && (ds[k] < MaxDelay ==> ds[i] < ds[k]) {
        SlotDelayIncreasing(i, k, jitters[i], jitters[k]);
      }
    }
    ds
  }

  /** At most `BatchSize` slots of a schedule fall into any one batch
      window, because slots of the same batch are consecutive. */
  lemma BatchHoldsAtMostFive(i: nat, k: nat)
    requires i <= k && BatchOf(i) == BatchOf(k)
    ensures k - i < BatchSize
  {
    assert i == BatchSize * BatchOf(i) + i % BatchSize;
    assert k == BatchSize * BatchOf(k) + k % BatchSize;
  }
}
