# Warp-specialised flash attention for Hopper GPUs, and the deferred error flag

This project models the integer bookkeeping of `attention_mgpu.py`, the Pallas
Mosaic-GPU flash-attention kernel, and proves properties of that model. The kernel
runs three work groups per grid cell. Two compute work groups each own `block_q`
query rows. A memory work group streams key/value tiles through a circular
buffer of `depth` shared-memory slots. The model covers:

- **Configuration and entry checks** (`validation.dfy`):
  - `TuningConfig` validation;
  - the ordered prologue checks of `attention` and `attention_with_pipeline_emitter`;
  - the effective pipeline depth `min(max_concurrent_steps, kv_seq_len // block_kv)`.

  Python's floor `//` and `%` are written out, because Dafny's division is Euclidean.
- **Index arithmetic** (`tiling.dfy`):
  - how the grid's query rows split between grid cells and compute groups;
  - the map from query heads to kv heads;
  - the kv tile rows;
  - the memory work group's copy schedule, as a method with loops.
- **The circular kv buffer** (`slot_protocol.dfy`): a class holding the slot
  array and per-tensor progress counters. Each barrier wait, copy and arrival is
  a guarded action. The class invariant proves that a compute group at kv step
  `t` always finds tile `t` in the slot it reads. One interleaving (`Run`:
  both compute groups finish kv step `t`, then the memory group refills the
  slot they released) runs to completion without a blocked wait.
- **The schedule barrier** (`schedule_barrier.dfy`): each compute group's
  sequence of rendezvous, `2n + 1` per group. The proof shows which rendezvous
  meet in each barrier phase.
- **The deferred error flag** of `jax._src.error_check`, as its test file
  pins it down (`error_check.dfy`):
  - `set_error_if` records a message only when some element of the predicate
    holds and no error is pending;
  - `raise_if_error` reports the pending error and clears it.

  Every test scenario is a method whose postcondition is the test's assertion.

## Model

| member | source | states |
|---|---|---|
| Validation.FloorModZeroIffDivides | jax/experimental/pallas/ops/gpu/attention_mgpu.py:38-41 | Python's `a % b` is zero exactly when `b` divides `a`, for either sign of `b`, so the truthiness tests `x % 64` reject exactly the non-multiples |
| Validation.ValidateTuningConfig | jax/experimental/pallas/ops/gpu/attention_mgpu.py:37-43 | the configuration is accepted iff `block_q % 64 == 0`, `block_kv % 64 == 0` and `max_concurrent_steps >= 2`; otherwise the error is a ValueError for a violated check, and no earlier check is violated |
| Validation.EffectiveDepth | jax/experimental/pallas/ops/gpu/attention_mgpu.py:67-69 | the depth is at most both `max_concurrent_steps` and the number of kv steps, and equals one of them |
| Validation.EntryChecks | jax/experimental/pallas/ops/gpu/attention_mgpu.py:48-69 | an error names a violated check with its exception kind and no earlier check is violated (order of lines 48-65, 68, 234-236, 160-161); the call is accepted iff no check is violated; an accepted call has rank-4 operands, `k` shaped `(B, Lkv, Hkv, D)`, equal f16/bf16 dtypes, `Hq = q_heads_per_kv_head * Hkv`, `D % 64 == 0`, `num_q_tiles * 2 * block_q == Lq`, `num_kv_steps == Lkv // block_kv` for either entry point (lines 163, 381), for `attention` also `num_kv_steps * block_kv == Lkv`, and the effective depth |
| Validation.OperandChecks | jax/experimental/pallas/ops/gpu/attention_mgpu.py:48-65 | the operand checks report the first violated check among ranks, shapes, dtypes, head counts and head_dim, with its exception kind; they pass iff none of those checks is violated, and then the operands are rank 4, `k` has the expected shape, the dtypes agree and are f16/bf16, and the heads divide |
| Validation.TileChecks | jax/experimental/pallas/ops/gpu/attention_mgpu.py:234-236 | once the operands passed, the block-size checks (lines 68, 234-236 and 160) report the first violated one; they pass iff none is violated, and the plan then tiles `q_seq_len` exactly into `num_q_tiles * 2 * block_q`, has `kv_seq_len // block_kv` kv steps for either entry point, tiles `kv_seq_len` exactly for `attention`, and has the effective depth |
| Validation.AttentionEntry | jax/experimental/pallas/ops/gpu/attention_mgpu.py:47-69 | `attention`'s prologue as written never reports the `v.shape` error, and an accepted call tiles the kv sequence exactly into `num_kv_steps` blocks of `block_kv` |
| Validation.PipelineEmitterEntry | jax/experimental/pallas/ops/gpu/attention_mgpu.py:264-290 | the emitter's prologue as written reports neither the `v.shape` error nor the `kv_seq_len % block_kv` error, and an accepted call drives `kv_seq_len // block_kv` kv steps (line 381) |
| Validation.AttentionEntryIgnoresVShape | jax/experimental/pallas/ops/gpu/attention_mgpu.py:53-56 | as written, both entry points give the same verdict for any two `v` of the same rank and dtype, and never raise the `v.shape` error |
| Validation.VShapeMismatchAccepted | jax/experimental/pallas/ops/gpu/attention_mgpu.py:55-56 | a `v` with 256 rows against a `k` with 128 passes `attention`'s prologue as written, and the `num_kv_steps * block_kv` rows the kernel reads from `v` lie inside `v`; the intended check rejects it with the `v.shape` ValueError |
| Validation.AttentionEntryIntended | jax/experimental/pallas/ops/gpu/attention_mgpu.py:55-56 | with line 55 comparing `v.shape`, an accepted call has `v.shape == k.shape == (B, Lkv, Hkv, D)` |
| Validation.EmitterOmitsOnlyKvSeqCheck | jax/experimental/pallas/ops/gpu/attention_mgpu.py:264-290 | the pipeline-emitter prologue agrees with `attention` on every call except that it never raises the `kv_seq_len % block_kv` error, accepting those calls instead |
| Validation.ZeroBlockQAccepted | jax/experimental/pallas/ops/gpu/attention_mgpu.py:37-43 | `block_q = 0` passes configuration validation, and `attention` then fails with ZeroDivisionError at line 234 |
| Validation.ValidateTuningConfigIntended | jax/experimental/pallas/ops/gpu/attention_mgpu.py:37-43 | accepts exactly the configurations the original accepts whose block sizes are at least 64; otherwise it reports, as a ValueError, the first check in the order of lines 38-43 that rejects the configuration once each block-size check also demands a positive size |
| Validation.IntendedConfigKeepsOrder | jax/experimental/pallas/ops/gpu/attention_mgpu.py:37-43 | for positive block sizes the intended check gives exactly the original's verdict, including which check it reports |
| Validation.IntendedConfigNoBlockDivision | jax/experimental/pallas/ops/gpu/attention_mgpu.py:67-69 | under the intended validation no entry error is a division by a block size, tile counts are non-negative, and with at least one kv step the depth lies in `[1, num_kv_steps]` |
| Tiling.QRowsInBounds | jax/experimental/pallas/ops/gpu/attention_mgpu.py:89 | the `block_q` rows from `q_seq_base` (`QSeqBase`) of every grid cell and compute group lie inside `[0, num_q_tiles * 2 * block_q)` |
| Tiling.QRowOwner | jax/experimental/pallas/ops/gpu/attention_mgpu.py:89 | every row of the query sequence has an owning grid cell and compute group in range whose rows, from `QSeqBase`, contain it |
| Tiling.QRowsDisjoint | jax/experimental/pallas/ops/gpu/attention_mgpu.py:89 | no row belongs to the `QSeqBase` rows of two different (grid cell, compute group) pairs |
| Tiling.AcceptedQRowsPartition | jax/experimental/pallas/ops/gpu/attention_mgpu.py:234-236 | for an accepted `attention` call a row lies in `[0, q_seq_len)` iff some launched (cell, group) owns it |
| Tiling.KvHead | jax/experimental/pallas/ops/gpu/attention_mgpu.py:187 | query head `h` reads kv head `h // q_heads_per_kv_head`, the block of size `q_heads_per_kv_head` containing `h` |
| Tiling.KvHeadInRange | jax/experimental/pallas/ops/gpu/attention_mgpu.py:59-61 | every query head maps to an existing kv head |
| Tiling.KvHeadServesExactly | jax/experimental/pallas/ops/gpu/attention_mgpu.py:187 | a query head maps to kv head `j` iff it is one of the `q_heads_per_kv_head` consecutive heads that `j` serves |
| Tiling.AcceptedKvTilesPartition | jax/experimental/pallas/ops/gpu/attention_mgpu.py:189-196 | for an accepted `attention` call every kv tile's rows, from `KvTileStart` (`t * block_kv`), lie inside the kv sequence, and every kv row lies in the tile `row // block_kv` |
| Tiling.EmitterKvTilesInBounds | jax/experimental/pallas/ops/gpu/attention_mgpu.py:381-395 | every tile of the emitter's grid, from `KvTileStart`, lies inside the kv sequence, even when its length is not a multiple of `block_kv` |
| Tiling.SlotOfNextUse | jax/experimental/pallas/ops/gpu/attention_mgpu.py:194-195 | tile `t + depth` goes to the same slot as tile `t`, one barrier phase later |
| Tiling.MemoryWorkGroupCopies | jax/experimental/pallas/ops/gpu/attention_mgpu.py:186-201 | the memory work group copies each kv tile exactly once, in order, into slot `t mod depth`; the first `depth` copies wait for nothing and copy `t` waits for the release of tile `t - depth` |
| SlotProtocol.CopiedIsReady | jax/experimental/pallas/ops/gpu/attention_mgpu.py:152-156 | once tile `t` has been copied, the ready barrier of its slot has completed the phase a wait for `t` needs |
| SlotProtocol.ReleasedSlotIsFree | jax/experimental/pallas/ops/gpu/attention_mgpu.py:197-200 | once both compute groups released tile `t - depth`, the consumed barrier of the slot of `t` has both arrivals |
| SlotProtocol.CopyKeeps | jax/experimental/pallas/ops/gpu/attention_mgpu.py:188-200 | a copy into a free slot preserves the slot invariant |
| SlotProtocol.WaitKeeps | jax/experimental/pallas/ops/gpu/attention_mgpu.py:136 | a ready wait that has passed preserves the slot invariant; under it, a group holding step `t` finds tile `t` in slot `t mod depth` |
| SlotProtocol.ReleaseKeeps | jax/experimental/pallas/ops/gpu/attention_mgpu.py:158 | an arrival on a consumed barrier preserves the slot invariant |
| SlotProtocol.KvPipeline.constructor | jax/experimental/pallas/ops/gpu/attention_mgpu.py:226-231 | allocates `depth = min(max_concurrent_steps, num_kv_steps)` empty slots with all counters zero, satisfying the invariant |
| SlotProtocol.KvPipeline.Copy | jax/experimental/pallas/ops/gpu/attention_mgpu.py:188-200 | a copy goes through iff it is a priming copy or the slot's consumed count is 2, and always once both groups released the slot's previous tile; it puts the next tile into slot `t mod depth`, completes one ready phase and resets the consumed count; otherwise nothing changes; the invariant is kept |
| SlotProtocol.KvPipeline.Wait | jax/experimental/pallas/ops/gpu/attention_mgpu.py:152-156 | a ready wait passes iff the slot's ready barrier has completed phase `t // depth`, and always when tile `t` has been copied; if it passes, the group now holds step `t`; the invariant is kept |
| SlotProtocol.KvPipeline.AwaitCopied | jax/experimental/pallas/ops/gpu/attention_mgpu.py:136 | a ready wait for a tile that is already copied passes, and the group then holds that step |
| SlotProtocol.KvPipeline.Read | jax/experimental/pallas/ops/gpu/attention_mgpu.py:113-117 | the tile a compute group finds in the slot of its current kv step is that very step's tile |
| SlotProtocol.KvPipeline.Release | jax/experimental/pallas/ops/gpu/attention_mgpu.py:121 | an arrival adds one to the slot's consumed count and advances the group past step `t`; the invariant is kept |
| SlotProtocol.KvPipeline.KeyHalf | jax/experimental/pallas/ops/gpu/attention_mgpu.py:113-121 | the key half of a kv step reads tile `t` and releases its slot |
| SlotProtocol.KvPipeline.ValueHalf | jax/experimental/pallas/ops/gpu/attention_mgpu.py:136-158 | the value half of a kv step passes both waits, reads value tile `t`, holds the next key tile iff there is a next step, and releases the value slot |
| SlotProtocol.KvPipeline.PrefetchAndRelease | jax/experimental/pallas/ops/gpu/attention_mgpu.py:150-158 | the end of a kv step passes the wait for the next key tile when there is a next step, and releases the value slot |
| SlotProtocol.KvPipeline.ComputeStep | jax/experimental/pallas/ops/gpu/attention_mgpu.py:111-159 | one kv-loop iteration of a compute group reads key and value tile `t`, with the counters advanced as the source orders its waits and arrivals |
| SlotProtocol.KvPipeline.MemoryStep | jax/experimental/pallas/ops/gpu/attention_mgpu.py:193-200 | once both groups released step `s`, both copies of tile `s + depth` go through |
| SlotProtocol.KvPipeline.Prime | jax/experimental/pallas/ops/gpu/attention_mgpu.py:188-191 | the priming copies fill every slot, and both groups' first key wait (line 108) passes |
| SlotProtocol.KvPipeline.Step | jax/experimental/pallas/ops/gpu/attention_mgpu.py:162-164 | both compute groups finish kv step `t`, each reading tile `t`, and the freed slot is refilled |
| SlotProtocol.KvPipeline.Run | jax/experimental/pallas/ops/gpu/attention_mgpu.py:108-201 | the chosen interleaving (both compute groups finish kv step `t`, then the memory group refills) ends with every tile copied, waited for and released by both groups; group `wg` reads key and value tile `t` at step `t` |
| ScheduleBarrier.LoopTrace | jax/experimental/pallas/ops/gpu/attention_mgpu.py:111-137 | the kv loop makes two rendezvous per step |
| ScheduleBarrier.Trace | jax/experimental/pallas/ops/gpu/attention_mgpu.py:110-165 | each compute group makes `2 * num_kv_steps + 1` rendezvous, so the two groups' arrivals balance |
| ScheduleBarrier.ComputeGroupRendezvous | jax/experimental/pallas/ops/gpu/attention_mgpu.py:110-165 | a compute group's control flow makes exactly the rendezvous of `Trace`, i.e. `2n + 1` of them, or none when the emitter variant has the barrier off (lines 328, 330, 356, 371); through `BarrierEnabled`, `attention` always makes them, whatever `use_schedule_barrier` says (lines 80-82, 305-307) |
| ScheduleBarrier.LoopTraceAt | jax/experimental/pallas/ops/gpu/attention_mgpu.py:118-137 | in closed form, the k-th rendezvous of the loop is after the scores of step `k / 2` for even `k` and after the softmax of step `k / 2` for odd `k` |
| ScheduleBarrier.PingPong | jax/experimental/pallas/ops/gpu/attention_mgpu.py:110-165 | phase `2t + 1` pairs group 0's end of softmax `t` with group 1's scores of step `t`; phase `2t + 2` pairs group 0's scores of step `t + 1` with group 1's end of softmax `t`; the first and last phases pair with the extra rendezvous before and after the loop |
| ErrorCheck.AfterSetErrorIf | tests/error_check_test.py:62-81 | a pending error is never replaced; from a clear state an error is recorded iff some predicate element holds, with the call's message |
| ErrorCheck.PendingErrorSticks | tests/error_check_test.py:62-81 | a pending error survives any later sequence of checks |
| ErrorCheck.FirstFailingCheckWins | tests/error_check_test.py:62-81 | from a clear state, a sequence of checks leaves an error iff some check fails, and the error is the message of the first failing check |
| ErrorCheck.ChecksWithSameMessageCombine | tests/error_check_test.py:152-171 | two checks with the same message act as one check on the concatenated predicates |
| ErrorCheck.ErrorState.constructor | tests/error_check_test.py:49-59 | a fresh error state has nothing pending |
| ErrorCheck.ErrorState.SetErrorIf | tests/error_check_test.py:35-46 | the new pending error is the first-error-wins update of the old one |
| ErrorCheck.ErrorState.RaiseIfError | tests/error_check_test.py:84-106 | reports the pending error, if any, and clears it |
| ErrorCheck.TestErrorCheck | tests/error_check_test.py:35-46 | `x <= 0` on `full(4, -1)` is reported as "x must be greater than 0" |
| ErrorCheck.TestNoError | tests/error_check_test.py:49-59 | `x <= 0` on `full(4, 1)` leaves nothing to raise |
| ErrorCheck.TestFirstError | tests/error_check_test.py:62-81 | after `f` passes, `g` fails and `f` fails again, the raised message is `g`'s |
| ErrorCheck.TestRaiseClears | tests/error_check_test.py:84-106 | raise reports `f`'s error, an immediate second raise reports nothing, and a later failure of `g` is reported with `g`'s message |
| ErrorCheck.CondBody | tests/error_check_test.py:110-119 | under `lax.cond` only the taken branch's check updates the error state; the result is `x + 1` |
| ErrorCheck.TestCond | tests/error_check_test.py:109-132 | the true branch reports "x must be non-zero in f", the false branch "x must be non-zero in g" |
| ErrorCheck.TestWhileLoop | tests/error_check_test.py:135-149 | running the while loop from `arange(4)` until no element is below 10 leaves "x must be less than 10" to be raised |
| ErrorCheck.ScanBody | tests/error_check_test.py:153-159 | checking each element inside `lax.scan` leaves the error state as one check on all of `xs` would; the carry is `init + sum(xs)` and the outputs are `xs + 1` |
| ErrorCheck.TestScan | tests/error_check_test.py:152-171 | scanning `arange(5)` sets "x must be less than 4", scanning `arange(4)` sets nothing |

## Left out

- GPU intrinsics and data movement are not modelled: `wgmma`, the copies between global and shared memory, `commit_smem`, `set_max_registers`, layouts, tiling and swizzle transforms, and scratch allocation. A copy only records which tile lands in which slot.
- Real concurrency is not modelled. The three work groups are a sequential guarded state machine. A wait that has not been satisfied returns `false` and changes nothing. Beyond arrival counting, hardware barrier semantics such as the phase-parity bit are left out. Ready and consumed barriers are modelled as counts.
- Floating point is not modelled: the online softmax, the rescaling by `alpha`, the final normalisation and the log-sum-exp residuals. The `head_dim <= 128` ordering branch only reorders float work around the same barrier calls.
- `attention_reference`, the benchmark `main`, and the `jax.jit`, `pl.core_map` and `run_state` plumbing are not modelled.
- `emit_pipeline_warp_specialized` and its buffering are not part of this model. For the emitter variant, only its prologue, its grid of kv tiles and its kernel body's schedule-barrier calls are modelled.
- Deadlock freedom under arbitrary schedules is not proved. `Run` proves completion for one schedule only: both compute groups finish kv step `t`, then the memory group refills. Other orders of the three work groups' actions, and whether a slot wait can block against the schedule barrier, are not covered.
- Overflow of the traced int32 indices is not modelled: `lax.axis_index`, the `fori_loop` counter and the row products at lines 89, 189, 196 and 300 are unbounded integers here, so row counts past 2^31 are outside the model.
- EntryChecks assumes that, when `0 < kv_seq_len < block_kv` (effective depth 0), tracing reaches the `kv_seq_len % block_kv` check at line 160. The zero-slot scratch and barriers (lines 211-218, 226-227) and the `k_barriers.at[0]` wait at line 108 come first, and what Pallas raises for them is not part of this model.
- Zero kv steps are not modelled by the slot protocol. When `kv_seq_len < block_kv`, the depth is 0 and line 108 waits on a barrier of an empty buffer, so `KvPipeline` requires at least one kv step.
- Negative block sizes are not covered by the index lemmas. They can pass validation, since `-64 % 64 == 0`, and the index lemmas assume positive block sizes. `EntryChecks` also accepts such calls with a negative plan: `block_q = -64` with `q_seq_len = 128` gives `num_q_tiles = -1`, and `block_kv = -64` with `kv_seq_len = 128` gives `num_kv_steps = depth = -2`. The source would then launch a negative grid or allocate scratch and barriers of negative size (lines 211-230, 249). What Pallas raises there is not part of this model.
- Tail rows in the emitter variant are not modelled. It accepts a `kv_seq_len` that is not a multiple of `block_kv` and floors the number of kv steps. What the driver does with the tail rows is not part of this model.
- `attention` ignores `use_schedule_barrier`. The model records this (`BarrierEnabled`) rather than changing it.
- The error state's propagation through tracing, `jit`, `cond`, `while_loop` and `scan` is not modelled: the implementation in `jax._src.error_check` is not part of this model. The `jit=True/False` parameterisation, which the tests expect to behave alike, and the `JaxValueError` type are left out too. A raised error is `Some(message)`.
- ErrorCheck.ErrorState.SetErrorIf does not model the array shapes or dtypes of the predicate. It takes a flat sequence of booleans.

## Findings

| source | as written | input that shows it | evidently intended | confidence | as-written member | corrected member |
|---|---|---|---|---|---|---|
| jax/experimental/pallas/ops/gpu/attention_mgpu.py:55-56 | the second shape check compares `k.shape` again, so a `v` of the wrong shape is never rejected by the prologue (also line 271) | `q = k = (1, 128, 1, 64)`, `v = (1, 256, 1, 64)`, f16, `TuningConfig(64, 64, 2, True)` | compare `v.shape` with `(B, Lkv, Hkv, D)`, as the error message says | high (not executed) | Validation.VShapeMismatchAccepted | Validation.AttentionEntryIntended |
| jax/experimental/pallas/ops/gpu/attention_mgpu.py:37-43 | `block_q % 64` and `block_kv % 64` admit 0, so a zero block size passes validation and the prologue then divides by zero (lines 68, 234) | `TuningConfig(block_q=0, block_kv=64, max_concurrent_steps=2)` with `q = k = v = (1, 128, 1, 64)` | reject block sizes that are not positive multiples of 64 | medium (not executed) | Validation.ZeroBlockQAccepted | Validation.ValidateTuningConfigIntended |
