/**
 * The schedule barrier that makes the two compute work groups take turns
 * on the tensor cores.
 *
 * The barrier has arrival count 2 (lines 231, 426), so its k-th phase
 * completes when both groups made their k-th arrival; every rendezvous of a
 * group is one arrival followed by one wait on the barrier (lines 80-82,
 * 135-137, 304-307). A group's rendezvous are recorded in program order; the k-th
 * rendezvous of one group meets the k-th of the other.
 */
module ScheduleBarrier {
  import opened Validation

  /** A point where a compute group meets the other one at the schedule barrier. */
  datatype Rendezvous =
    | BeforeLoop          // group 1 only, before its kv loop (lines 110, 328)
    | AfterQK(step: nat)  // after issuing the scores matmul of a kv step (lines 118, 356)
    | EndSoftmax(step: nat) // after the softmax of a kv step (lines 135-137, 371)
    | AfterLoop           // group 0 only, after its kv loop (lines 165, 330)

  /** The rendezvous of `steps` kv loop iterations: two per step, in order. */
  function LoopTrace(steps: nat): (tr: seq<Rendezvous>)
    ensures |tr| == 2 * steps
  {
    if steps == 0 then [] else LoopTrace(steps - 1) + [AfterQK(steps - 1), EndSoftmax(steps - 1)]
  }

  /**
   * Every rendezvous of compute group `wg` over `numKvSteps` kv steps, in
   * program order: `2 * numKvSteps + 1` of them for either group, so the two
   * groups' arrivals balance and no wait is left without its partner.
   */
  function Trace(wg: nat, numKvSteps: nat): (tr: seq<Rendezvous>)
    requires wg < 2
    ensures |tr| == 2 * numKvSteps + 1
  {
    (if wg == 1 then [BeforeLoop] else []) + LoopTrace(numKvSteps) + (if wg == 0 then [AfterLoop] else [])
  }

  /**
   * Whether a kernel variant arrives at the schedule barrier at all:
   * `attention` always does, whatever the flag says.
   */
  function BarrierEnabled(variant: Variant, useScheduleBarrier: bool): (enabled: bool)
    ensures variant == HandPipelined ==> enabled
  {
    match variant
    case HandPipelined => true  // `attention` ignores use_schedule_barrier (lines 80-82)
    case PipelineEmitter => useScheduleBarrier  // lines 305-307
  }

  /**
   * Walks one compute group's control flow and records every rendezvous it
   * makes; with the barrier disabled (possible only in the pipeline-emitter
   * variant) it makes none.
   */
  method ComputeGroupRendezvous(variant: Variant, useScheduleBarrier: bool, wg: nat, numKvSteps: nat)
    returns (trace: seq<Rendezvous>)
    requires wg < 2
    ensures trace == if BarrierEnabled(variant, useScheduleBarrier) then Trace(wg, numKvSteps) else []
    ensures |trace| == if BarrierEnabled(variant, useScheduleBarrier) then 2 * numKvSteps + 1 else 0
  {
    var enabled := BarrierEnabled(variant, useScheduleBarrier);
    var prologue: seq<Rendezvous> := if wg == 1 && enabled then [BeforeLoop] else [];
    trace := prologue;
    for step := 0 to numKvSteps
      invariant enabled ==> trace == prologue + LoopTrace(step)
      invariant !enabled ==> trace == []
    {
      if enabled {
        trace := trace + [AfterQK(step)];
        trace := trace + [EndSoftmax(step)];
        assert trace == prologue + (LoopTrace(step) + [AfterQK(step), EndSoftmax(step)]);
      }
    }
    if wg == 0 && enabled {
      trace := trace + [AfterLoop];
    }
  }

  /** The k-th rendezvous inside the kv loop, in closed form. */
  lemma {:induction false} LoopTraceAt(steps: nat, k: nat)
    requires k < 2 * steps
    ensures LoopTrace(steps)[k] == if k % 2 == 0 then AfterQK(k / 2) else EndSoftmax(k / 2)
  {
    if k < 2 * (steps - 1) {
      LoopTraceAt(steps - 1, k);
    }
  }

  /**
   * The ping-pong the barrier enforces: phase `k` pairs group 0's k-th
   * rendezvous with group 1's. Group 1 starts one rendezvous ahead, so while
   * one group finishes its softmax of step `t` the other has just issued a
   * scores matmul: group 0 ends the softmax of step `t` as group 1 issues
   * step `t`'s scores, and group 0 issues step `t + 1`'s scores as group 1
   * ends the softmax of step `t`.
   */
  lemma PingPong(numKvSteps: nat, k: nat)
    requires k <= 2 * numKvSteps
    ensures var pair := (Trace(0, numKvSteps)[k], Trace(1, numKvSteps)[k]);
      if k == 2 * numKvSteps then
        pair == (AfterLoop, if k == 0 then BeforeLoop else EndSoftmax(numKvSteps - 1))
      else if k % 2 == 1 then
        pair == (EndSoftmax(k / 2), AfterQK(k / 2))
      else
        pair == (AfterQK(k / 2), if k == 0 then BeforeLoop else EndSoftmax(k / 2 - 1))
  {
    var loop := LoopTrace(numKvSteps);
    assert Trace(0, numKvSteps) == loop + [AfterLoop];
    assert Trace(1, numKvSteps) == [BeforeLoop] + loop;
    if k < 2 * numKvSteps {
      LoopTraceAt(numKvSteps, k);
    }
    if k > 0 {
      LoopTraceAt(numKvSteps, k - 1);
    }
  }
}
