/**
 * The circular key/value buffer of the hand-pipelined kernel, as a sequential
 * state machine.
 *
 * The memory work group copies kv tile `t` into slot `t mod depth` (lines
 * 188-201); each of the two compute work groups reads slot `t mod depth` at kv
 * step `t` (lines 113, 117, 150). A slot has, per tensor (key and value), a
 * ready barrier that completes one phase per copy landed in it (lines 190-191,
 * 198, 200) and a consumed barrier with arrival count 2 (line 230) on which
 * each compute group arrives once it is done with the tile (lines 121, 158).
 * Barrier waits become guards: a wait whose phase has not completed returns
 * `false` and changes nothing, which stands for the group blocking there.
 */
module SlotProtocol {
  import opened Validation
  import Tiling

  /** Compute work groups, and arrival count of every consumed barrier (line 230). */
  const ComputeGroups: nat := 2

  /** The two tensors staged in every slot. */
  datatype Operand = Key | Value

  function Other(op: Operand): Operand {
    if op == Key then Value else Key
  }

  /** One tensor's half of a slot. */
  datatype Stage = Stage(
    tile: int,      // kv tile in the slot; -1 before the first copy
    ready: nat,     // completed phases of the slot's ready barrier = copies landed
    consumed: nat)  // arrivals on the slot's consumed barrier since the last copy

  datatype Slot = Slot(key: Stage, value: Stage) {
    function Of(op: Operand): Stage {
      if op == Key then key else value
    }
    function With(op: Operand, st: Stage): Slot {
      if op == Key then this.(key := st) else this.(value := st)
    }
  }

  /** One tensor's stages across all slots. */
  function StagesOf(slots: seq<Slot>, op: Operand): (st: seq<Stage>)
    ensures |st| == |slots|
    ensures forall i | 0 <= i < |slots| :: st[i] == slots[i].Of(op)
  {
    seq(|slots|, i requires 0 <= i < |slots| => slots[i].Of(op))
  }

  /** Updating one tensor's stage of a slot leaves the other tensor's stages alone. */
  lemma StagesAfterWith(slots: seq<Slot>, s: int, op: Operand, x: Stage)
    requires 0 <= s < |slots|
    ensures StagesOf(slots[s := slots[s].With(op, x)], op) == StagesOf(slots, op)[s := x]
    ensures StagesOf(slots[s := slots[s].With(op, x)], Other(op)) == StagesOf(slots, Other(op))
  {
  }

  /**
   * Progress on one tensor: tiles copied by the memory work group, and per
   * compute work group the kv steps whose ready wait passed and whose slot
   * was released.
   */
  datatype Progress = Progress(issued: nat, waited: seq<nat>, released: seq<nat>)

  /** How many compute work groups have released kv step `tile`. */
  function ReleasedCount(released: seq<nat>, tile: int): nat
    requires |released| == ComputeGroups
  {
    (if released[0] > tile then 1 else 0) + (if released[1] > tile then 1 else 0)
  }

  // ---------------------------------------------------------------------
  // Slot arithmetic

  lemma ResidueBelowDepth(x: int, d: int)
    requires 0 <= x < d
    ensures x % d == x && x / d == 0
  {
    Tiling.DivModUnique(x, 0, x, d);
  }

  /** The slot and phase of a tile: a slot no larger than the tile, a phase that is not negative. */
  lemma SlotAndPhase(x: int, d: int)
    requires 0 <= x && d > 0
    ensures 0 <= x % d < d && x % d <= x && 0 <= x / d
  {
    var q := x / d;
    assert x == d * q + x % d;
    if q < 0 {
      MulAtLeast(d, -q);
    }
    if q > 0 {
      MulAtLeast(d, q);
    }
  }

  /** Two tiles of the same slot less than `d` apart are the same tile. */
  lemma {:induction false} SameSlotClose(x: int, y: int, d: int)
    requires d > 0 && x % d == y % d && y - d < x <= y
    ensures x == y
  {
    var qx, qy, r := x / d, y / d, x % d;
    assert x == d * qx + r && y == d * qy + r;
    if qy > qx {
      assert y - x == d * (qy - qx);
      MulAtLeast(d, qy - qx);
    } else if qy < qx {
      assert x - y == d * (qx - qy);
      MulAtLeast(d, qx - qy);
    }
  }

  lemma {:induction false} DivMonotone(x: int, y: int, d: int)
    requires d > 0 && x <= y
    ensures x / d <= y / d
  {
    var qx, qy := x / d, y / d;
    assert x == d * qx + x % d && y == d * qy + y % d;
    if qx > qy {
      assert x - y == d * (qx - qy) + x % d - y % d;
      MulAtLeast(d, qx - qy);
    }
  }

  /**
   * The ready-phase test identifies the tile: if the slot of `t` holds a tile
   * whose phase is at least that of `t` and which is less than a slot cycle
   * ahead of `t`, the slot holds `t` itself.
   */
  lemma {:induction false} PhaseIdentifiesTile(big: int, t: int, d: int)
    requires d > 0 && big % d == t % d && big / d >= t / d && big - d < t
    ensures big == t
  {
    var qb, qt, r := big / d, t / d, t % d;
    assert big == d * qb + r && t == d * qt + r;
    if qb > qt {
      assert big - t == d * (qb - qt);
      MulAtLeast(d, qb - qt);
    }
  }

  // ---------------------------------------------------------------------
  // The invariant of one tensor's slots, on values

  /**
   * Slot `s` holds the latest tile copied into it; its ready count is that
   * tile's phase plus one; both groups released the tile it held before; its
   * consumed count is the number of groups that released the current one.
   */
  ghost predicate StageOk(st: seq<Stage>, issued: nat, released: seq<nat>, s: int)
    requires 0 <= s < |st| && |released| == ComputeGroups
  {
    var x, d := st[s], |st|;
    && (x.ready == 0 <==> issued <= s)
    && (x.ready == 0 ==> x.consumed == 0)
    && (x.ready > 0 ==>
          && 0 <= x.tile && x.tile % d == s
          && x.tile < issued <= x.tile + d
          && x.ready == x.tile / d + 1
          && released[0] > x.tile - d && released[1] > x.tile - d
          && x.consumed == ReleasedCount(released, x.tile))
  }

  /**
   * A compute group has released every step it waited for but at most one,
   * waits only for copied tiles, and the slot of the step it holds holds
   * that step's tile.
   */
  ghost predicate GroupOk(st: seq<Stage>, p: Progress, wg: int)
    requires |st| > 0 && 0 <= wg < ComputeGroups
    requires |p.waited| == ComputeGroups && |p.released| == ComputeGroups
  {
    && p.released[wg] <= p.waited[wg] <= p.released[wg] + 1
    && p.waited[wg] <= p.issued
    && (p.waited[wg] == p.released[wg] + 1 ==> st[p.released[wg] % |st|].tile == p.released[wg])
  }

  ghost predicate TensorOk(st: seq<Stage>, p: Progress, numKvSteps: nat)
  {
    && |st| > 0
    && |p.waited| == ComputeGroups && |p.released| == ComputeGroups
    && p.issued <= numKvSteps
    && GroupOk(st, p, 0) && GroupOk(st, p, 1)
    && forall s | 0 <= s < |st| :: StageOk(st, p.issued, p.released, s)
  }

  /** A copied tile has completed its phase of its slot's ready barrier. */
  lemma CopiedIsReady(st: seq<Stage>, p: Progress, n: nat, t: int)
    requires TensorOk(st, p, n) && 0 <= t < p.issued
    ensures st[t % |st|].ready > t / |st|
  {
    var d := |st|;
    var s := t % d;
    SlotAndPhase(t, d);
    assert StageOk(st, p.issued, p.released, s);
    var big := st[s].tile;
    if t > big {
      SameSlotClose(big, t, d);
    }
    DivMonotone(t, big, d);
  }

  /** Once both groups released the slot's previous tile, its consumed count is 2. */
  lemma ReleasedSlotIsFree(st: seq<Stage>, p: Progress, n: nat)
    requires TensorOk(st, p, n) && |st| <= p.issued
    requires p.released[0] > p.issued - |st| && p.released[1] > p.issued - |st|
    ensures st[p.issued % |st|].consumed == ComputeGroups
  {
    var t, d := p.issued, |st|;
    var s := t % d;
    SlotAndPhase(t, d);
    assert StageOk(st, p.issued, p.released, s);
    var big := st[s].tile;
    Tiling.SlotOfNextUse(big, d);
    SameSlotClose(t, big + d, d);
  }

  lemma CopyKeepsGroup(st: seq<Stage>, p: Progress, n: nat, wg: int)
    requires TensorOk(st, p, n) && 0 <= wg < ComputeGroups
    requires p.issued < |st| || st[p.issued % |st|].consumed == ComputeGroups
    ensures var t, d := p.issued, |st|;
      GroupOk(st[t % d := Stage(t, st[t % d].ready + 1, 0)], p.(issued := t + 1), wg)
  {
    var t, d := p.issued, |st|;
    var s := t % d;
    SlotAndPhase(t, d);
    assert StageOk(st, p.issued, p.released, s);
    var r := p.released[wg];
    if p.waited[wg] == r + 1 {
      if t < d {
        ResidueBelowDepth(r, d);
        ResidueBelowDepth(t, d);
      } else {
        Tiling.SlotOfNextUse(st[s].tile, d);
        SameSlotClose(t, st[s].tile + d, d);
      }
      assert r % d != s;
    }
  }

  /** A copy into a free slot keeps the invariant (lines 190-191, 197-200). */
  lemma CopyKeeps(st: seq<Stage>, p: Progress, n: nat)
    requires TensorOk(st, p, n) && p.issued < n
    requires p.issued < |st| || st[p.issued % |st|].consumed == ComputeGroups
    ensures var t, d := p.issued, |st|;
      TensorOk(st[t % d := Stage(t, st[t % d].ready + 1, 0)], p.(issued := t + 1), n)
  {
    var t, d := p.issued, |st|;
    var s := t % d;
    SlotAndPhase(t, d);
    var st', p' := st[s := Stage(t, st[s].ready + 1, 0)], p.(issued := t + 1);
    assert StageOk(st, p.issued, p.released, s);
    assert GroupOk(st, p, 0) && GroupOk(st, p, 1);
    if t < d {
      ResidueBelowDepth(t, d);
    } else {
      Tiling.SlotOfNextUse(st[s].tile, d);
      SameSlotClose(t, st[s].tile + d, d);
    }
    assert StageOk(st', p'.issued, p'.released, s);
    forall s' | 0 <= s' < d
      ensures StageOk(st', p'.issued, p'.released, s')
    {
      if s' != s {
        assert StageOk(st, p.issued, p.released, s');
        if st[s'].ready > 0 {
          Tiling.SlotOfNextUse(st[s'].tile, d);
        }
      }
    }
    CopyKeepsGroup(st, p, n, 0);
    CopyKeepsGroup(st, p, n, 1);
  }

  /** A ready wait that passes keeps the invariant (lines 108, 136, 156). */
  lemma WaitKeeps(st: seq<Stage>, p: Progress, n: nat, wg: int)
    requires TensorOk(st, p, n) && 0 <= wg < ComputeGroups
    requires p.waited[wg] == p.released[wg]
    requires st[p.waited[wg] % |st|].ready > p.waited[wg] / |st|
    ensures var t := p.waited[wg]; TensorOk(st, p.(waited := p.waited[wg := t + 1]), n)
  {
    var t := p.waited[wg];
    var p' := p.(waited := p.waited[wg := t + 1]);
    assert p'.issued == p.issued && p'.released == p.released;
    assert StageOk(st, p.issued, p.released, t % |st|);
    WaitKeepsGroup(st, p, wg);
    assert GroupOk(st, p, 1 - wg);
    assert p'.waited[1 - wg] == p.waited[1 - wg];
  }

  /** The group whose wait passed now holds the awaited tile. */
  lemma WaitKeepsGroup(st: seq<Stage>, p: Progress, wg: int)
    requires |st| > 0 && |p.waited| == ComputeGroups && |p.released| == ComputeGroups
    requires 0 <= wg < ComputeGroups && p.waited[wg] == p.released[wg]
    requires StageOk(st, p.issued, p.released, p.waited[wg] % |st|)
    requires st[p.waited[wg] % |st|].ready > p.waited[wg] / |st|
    ensures var t := p.waited[wg]; GroupOk(st, p.(waited := p.waited[wg := t + 1]), wg)
  {
    var t, d := p.waited[wg], |st|;
    var x := st[t % d];
    SlotAndPhase(t, d);
    AwaitedTileHeld(x.tile, x.ready, t, d);
  }

  /**
   * A slot whose ready count shows the phase of `t` and whose tile both
   * groups are at most one slot cycle past holds `t` itself.
   */
  lemma AwaitedTileHeld(tile: int, ready: int, t: int, d: int)
    requires d > 0 && tile % d == t % d && ready == tile / d + 1 && ready > t / d && t > tile - d
    ensures tile == t
  {
    PhaseIdentifiesTile(tile, t, d);
  }

  /** A release of tile `t` leaves the stage of every slot not holding `t` valid. */
  lemma ReleaseKeepsOtherStage(st: seq<Stage>, issued: nat, released: seq<nat>, wg: int, s: int)
    requires 0 <= s < |st| && |released| == ComputeGroups && 0 <= wg < ComputeGroups
    requires StageOk(st, issued, released, s)
    requires st[s].ready > 0 ==> st[s].tile != released[wg]
    ensures StageOk(st, issued, released[wg := released[wg] + 1], s)
  {
  }

  /** A release of tile `t` counts one more arrival at the slot holding `t`. */
  lemma ReleaseKeepsOwnStage(st: seq<Stage>, issued: nat, released: seq<nat>, wg: int, s: int)
    requires 0 <= s < |st| && |released| == ComputeGroups && 0 <= wg < ComputeGroups
    requires StageOk(st, issued, released, s)
    requires st[s].ready > 0 && st[s].tile == released[wg]
    ensures StageOk(st[s := st[s].(consumed := st[s].consumed + 1)], issued, released[wg := released[wg] + 1], s)
  {
  }

  /** A release leaves every group's view of the slots valid. */
  lemma ReleaseKeepsGroups(st: seq<Stage>, p: Progress, n: nat, wg: int)
    requires TensorOk(st, p, n) && 0 <= wg < ComputeGroups
    requires p.waited[wg] == p.released[wg] + 1
    ensures var t, d := p.released[wg], |st|;
      var st', p' := st[t % d := st[t % d].(consumed := st[t % d].consumed + 1)],
                     p.(released := p.released[wg := t + 1]);
      GroupOk(st', p', 0) && GroupOk(st', p', 1)
  {
    SlotAndPhase(p.released[wg], |st|);
    assert GroupOk(st, p, 0) && GroupOk(st, p, 1);
  }

  /** A release by a group that holds its step keeps the invariant (lines 121, 158). */
  lemma ReleaseKeeps(st: seq<Stage>, p: Progress, n: nat, wg: int)
    requires TensorOk(st, p, n) && 0 <= wg < ComputeGroups
    requires p.waited[wg] == p.released[wg] + 1
    ensures var t, d := p.released[wg], |st|;
      TensorOk(st[t % d := st[t % d].(consumed := st[t % d].consumed + 1)],
               p.(released := p.released[wg := t + 1]), n)
  {
    var t, d := p.released[wg], |st|;
    var s := t % d;
    SlotAndPhase(t, d);
    var st' := st[s := st[s].(consumed := st[s].consumed + 1)];
    var p' := p.(released := p.released[wg := t + 1]);
    assert GroupOk(st, p, wg);
    assert StageOk(st, p.issued, p.released, s);
    if t < d {
      ResidueBelowDepth(t, d);
    }
    ReleaseKeepsOwnStage(st, p.issued, p.released, wg, s);
    forall s' | 0 <= s' < d
      ensures StageOk(st', p'.issued, p'.released, s')
    {
      if s' != s {
        assert StageOk(st, p.issued, p.released, s');
        ReleaseKeepsOtherStage(st, p.issued, p.released, wg, s');
        assert st'[s'] == st[s'];
      }
    }
    ReleaseKeepsGroups(st, p, n, wg);
  }

  // ---------------------------------------------------------------------

  class KvPipeline {
    /** The effective pipeline depth (lines 67-69): the number of slots. */
    const depth: nat
    /** `kv_seq_len // block_kv`: the kv steps of every compute loop. */
    const numKvSteps: nat
    /** The slots of `k_smem`/`v_smem` with their barriers (lines 211-218, 226-227, 230). */
    const slots: array<Slot>
    var keys: Progress
    var values: Progress

    function Prog(op: Operand): Progress
      reads this
    {
      if op == Key then keys else values
    }

    /** Compute work group `wg` has passed the ready wait of its current step and not released it. */
    predicate Holds(wg: nat, op: Operand)
      reads this
      requires wg < |Prog(op).waited| && wg < |Prog(op).released|
    {
      Prog(op).waited[wg] == Prog(op).released[wg] + 1
    }

    ghost predicate Valid()
      reads this, slots
    {
      && slots.Length == depth
      && 1 <= depth <= numKvSteps
      && (depth >= 2 || depth == numKvSteps)
      && |keys.waited| == |keys.released| == |values.waited| == |values.released| == ComputeGroups
      && forall o: Operand :: OpOk(o)
    }

    /** The slot invariant of one operand's stages and progress. */
    ghost predicate OpOk(op: Operand)
      reads this, slots
    {
      TensorOk(StagesOf(slots[..], op), Prog(op), numKvSteps)
    }

    /** Allocates the slots and barriers for `kv_seq_len // block_kv` kv steps. */
    constructor (maxConcurrentSteps: int, numKvSteps: nat)
      requires maxConcurrentSteps >= 2 && numKvSteps >= 1
      ensures Valid() && fresh(slots)
      ensures depth == EffectiveDepth(maxConcurrentSteps, numKvSteps)
      ensures this.numKvSteps == numKvSteps
      ensures keys == values == Progress(0, [0, 0], [0, 0])
    {
      var d := EffectiveDepth(maxConcurrentSteps, numKvSteps);
      depth := d;
      this.numKvSteps := numKvSteps;
      slots := new Slot[d](_ => Slot(Stage(-1, 0, 0), Stage(-1, 0, 0)));
      keys := Progress(0, [0, 0], [0, 0]);
      values := Progress(0, [0, 0], [0, 0]);
    }

    /** Writes stage `x` of `op` into slot `s`, leaving the other operand's stage alone. */
    method SetStage(s: nat, op: Operand, x: Stage)
      requires s < slots.Length
      modifies slots
      ensures slots[..] == old(slots[..])[s := old(slots[s]).With(op, x)]
      ensures StagesOf(slots[..], op) == StagesOf(old(slots[..]), op)[s := x]
      ensures StagesOf(slots[..], Other(op)) == StagesOf(old(slots[..]), Other(op))
    {
      StagesAfterWith(slots[..], s, op, x);
      slots[s] := slots[s].With(op, x);
    }

    /** Replaces the progress of `op`, leaving the other operand's alone. */
    method SetProgress(op: Operand, p: Progress)
      modifies this
      ensures Prog(op) == p && Prog(Other(op)) == old(Prog(Other(op)))
    {
      if op == Key {
        keys := p;
      } else {
        values := p;
      }
    }

    /**
     * The memory work group copies the next tile of `op` into its slot: the
     * priming copies (lines 188-191) need no wait; a later copy (lines
     * 197-200) first waits until both compute groups released the slot's
     * previous tile, i.e. its consumed count reached 2.
     */
    method Copy(op: Operand) returns (copied: bool)
      requires Valid() && Prog(op).issued < numKvSteps
      modifies this, slots
      ensures Valid()
      ensures var t := old(Prog(op).issued);
        copied == (t < depth || old(slots[t % depth].Of(op).consumed) == ComputeGroups)
      ensures var t := old(Prog(op).issued);
        old(Prog(op).released[0]) > t - depth && old(Prog(op).released[1]) > t - depth ==> copied
      ensures var t := old(Prog(op).issued);
        if copied then
          && slots[..] == old(slots[..])[t % depth :=
               old(slots[t % depth]).With(op, Stage(t, old(slots[t % depth].Of(op).ready) + 1, 0))]
          && Prog(op) == old(Prog(op)).(issued := t + 1)
        else
          slots[..] == old(slots[..]) && Prog(op) == old(Prog(op))
      ensures Prog(Other(op)) == old(Prog(Other(op)))
    {
      // Names the per-operand invariants so the solver instantiates them here.
      ghost var mentioned := OpOk(op) && OpOk(Other(op));
      var t := Prog(op).issued;
      var s := t % depth;
      if t >= depth && Prog(op).released[0] > t - depth && Prog(op).released[1] > t - depth {
        ReleasedSlotIsFree(StagesOf(slots[..], op), Prog(op), numKvSteps);
      }
      if t >= depth && slots[s].Of(op).consumed != ComputeGroups {
        return false;
      }
      copied := true;
      CopyKeeps(StagesOf(slots[..], op), Prog(op), numKvSteps);
      SetStage(s, op, Stage(t, slots[s].Of(op).ready + 1, 0));
      SetProgress(op, Prog(op).(issued := t + 1));
    }

    /**
     * Compute work group `wg` waits on the ready barrier of the slot of its
     * next kv step: for the key at line 108 (step 0) and line 156 (the
     * prefetch of the next step), for the value at line 136. The wait passes
     * once the slot's ready barrier completed the phase of that step.
     */
    method Wait(wg: nat, op: Operand) returns (passed: bool)
      requires Valid() && wg < ComputeGroups
      requires Prog(op).waited[wg] == Prog(op).released[wg]
      modifies this
      ensures Valid()
      ensures var t := old(Prog(op).waited[wg]);
        passed == (slots[t % depth].Of(op).ready > t / depth)
      ensures old(Prog(op).waited[wg]) < old(Prog(op).issued) ==> passed
      ensures var t := old(Prog(op).waited[wg]);
        Prog(op) == if passed then old(Prog(op)).(waited := old(Prog(op).waited)[wg := t + 1])
                    else old(Prog(op))
      ensures Prog(Other(op)) == old(Prog(Other(op)))
    {
      // Names the per-operand invariants so the solver instantiates them here.
      ghost var mentioned := OpOk(op) && OpOk(Other(op));
      var t := Prog(op).waited[wg];
      if t < Prog(op).issued {
        CopiedIsReady(StagesOf(slots[..], op), Prog(op), numKvSteps, t);
      }
      if slots[t % depth].Of(op).ready <= t / depth {
        return false;
      }
      passed := true;
      WaitKeeps(StagesOf(slots[..], op), Prog(op), numKvSteps, wg);
      SetProgress(op, Prog(op).(waited := Prog(op).waited[wg := t + 1]));
    }

    /** A ready wait for a tile the memory work group already copied: it passes. */
    method AwaitCopied(wg: nat, op: Operand)
      requires Valid() && wg < ComputeGroups
      requires Prog(op).waited[wg] == Prog(op).released[wg] < Prog(op).issued
      modifies this
      ensures Valid() && Holds(wg, op)
      ensures Prog(op) == old(Prog(op)).(waited := old(Prog(op).waited)[wg := old(Prog(op).waited[wg]) + 1])
      ensures Prog(Other(op)) == old(Prog(Other(op)))
    {
      var passed := Wait(wg, op);
    }

    /**
     * The tile compute work group `wg` finds in the slot it reads at its
     * current kv step (`k_smem.at[slot]`, line 117; `v_smem.at[slot]`, line
     * 150): always the tile of that very step.
     */
    method Read(wg: nat, op: Operand) returns (tile: int)
      requires Valid() && wg < ComputeGroups && Holds(wg, op)
      ensures tile == Prog(op).released[wg]
    {
      // Names the per-operand invariant so the solver instantiates it here.
      ghost var mentioned := OpOk(op);
      assert GroupOk(StagesOf(slots[..], op), Prog(op), wg);
      tile := slots[Prog(op).released[wg] % depth].Of(op).tile;
    }

    /**
     * Compute work group `wg` arrives on the consumed barrier of the slot of
     * its current step: for the key once its scores are computed (line 121),
     * for the value once the step is done (line 158).
     */
    method Release(wg: nat, op: Operand)
      requires Valid() && wg < ComputeGroups && Holds(wg, op)
      modifies this, slots
      ensures Valid()
      ensures var t := old(Prog(op).released[wg]);
        && slots[..] == old(slots[..])[t % depth :=
             old(slots[t % depth]).With(op, old(slots[t % depth].Of(op)).(consumed := old(slots[t % depth].Of(op).consumed) + 1))]
        && Prog(op) == old(Prog(op)).(released := old(Prog(op).released)[wg := t + 1])
      ensures Prog(Other(op)) == old(Prog(Other(op)))
    {
      var t := Prog(op).released[wg];
      var s := t % depth;
      var st := StagesOf(slots[..], op);
      // Names the per-operand invariants so the solver instantiates them here.
      ghost var mentioned := OpOk(op) && OpOk(Other(op));
      ReleaseKeeps(st, Prog(op), numKvSteps, wg);
      SetStage(s, op, st[s].(consumed := st[s].consumed + 1));
      SetProgress(op, Prog(op).(released := Prog(op).released[wg := t + 1]));
    }

    /**
     * The key half of a compute group's kv step (lines 113-121): read the key
     * tile the group waited for and release its slot.
     */
    method KeyHalf(wg: nat, kvStep: nat) returns (keyTile: int)
      requires Valid() && wg < ComputeGroups
      requires keys.waited[wg] == kvStep + 1 && keys.released[wg] == kvStep
      modifies this, slots
      ensures Valid()
      ensures keyTile == kvStep
      ensures keys == old(keys).(released := old(keys.released)[wg := kvStep + 1])
      ensures values == old(values)
    {
      keyTile := Read(wg, Key);
      Release(wg, Key);
    }

    /**
     * The value half of a compute group's kv step (lines 136-158): wait for
     * and read the value tile, wait for the next key tile if there is one
     * (lines 152-156), then release the value slot. Both waits pass.
     */
    method ValueHalf(wg: nat, kvStep: nat) returns (valueTile: int)
      requires Valid() && wg < ComputeGroups && kvStep < numKvSteps
      requires keys.waited[wg] == kvStep + 1 && keys.released[wg] == kvStep + 1
      requires values.waited[wg] == kvStep && values.released[wg] == kvStep
      requires values.issued > kvStep
      requires kvStep + 1 < numKvSteps ==> keys.issued > kvStep + 1
      modifies this, slots
      ensures Valid()
      ensures valueTile == kvStep
      ensures keys == if kvStep + 1 < numKvSteps then old(keys).(waited := old(keys.waited)[wg := kvStep + 2])
                      else old(keys)
      ensures values == old(values).(
        waited := old(values.waited)[wg := kvStep + 1],
        released := old(values.released)[wg := kvStep + 1])
    {
      AwaitCopied(wg, Value);
      valueTile := Read(wg, Value);
      PrefetchAndRelease(wg, kvStep);
    }

    /**
     * The end of a kv step (lines 150-158): wait for the next key tile if
     * there is one, then release the value slot.
     */
    method PrefetchAndRelease(wg: nat, kvStep: nat)
      requires Valid() && wg < ComputeGroups && kvStep < numKvSteps
      requires keys.waited[wg] == kvStep + 1 && keys.released[wg] == kvStep + 1
      requires values.waited[wg] == kvStep + 1 && values.released[wg] == kvStep
      requires kvStep + 1 < numKvSteps ==> keys.issued > kvStep + 1
      modifies this, slots
      ensures Valid()
      ensures keys == if kvStep + 1 < numKvSteps then old(keys).(waited := old(keys.waited)[wg := kvStep + 2])
                      else old(keys)
      ensures values == old(values).(released := old(values.released)[wg := kvStep + 1])
    {
      if kvStep + 1 < numKvSteps {
        AwaitCopied(wg, Key);
      }
      Release(wg, Value);
    }

    /**
     * One iteration of a compute group's kv loop (lines 111-159), in the
     * source's order. Every wait passes, and both tiles read are those of
     * the step.
     */
    method ComputeStep(wg: nat, kvStep: nat) returns (keyTile: int, valueTile: int)
      requires Valid() && wg < ComputeGroups && kvStep < numKvSteps
      requires keys.waited[wg] == kvStep + 1 && keys.released[wg] == kvStep
      requires values.waited[wg] == kvStep && values.released[wg] == kvStep
      requires values.issued > kvStep
      requires kvStep + 1 < numKvSteps ==> keys.issued > kvStep + 1
      modifies this, slots
      ensures Valid()
      ensures keyTile == kvStep && valueTile == kvStep
      ensures keys == old(keys).(
        waited := old(keys.waited)[wg := if kvStep + 1 < numKvSteps then kvStep + 2 else kvStep + 1],
        released := old(keys.released)[wg := kvStep + 1])
      ensures values == old(values).(
        waited := old(values.waited)[wg := kvStep + 1],
        released := old(values.released)[wg := kvStep + 1])
    {
      keyTile := KeyHalf(wg, kvStep);
      valueTile := ValueHalf(wg, kvStep);
    }

    /**
     * One iteration of the memory work group's loop (lines 196-200): once
     * both compute groups released step `kvStep`, both copies of tile
     * `kvStep + depth` go through.
     */
    method MemoryStep(kvStep: nat)
      requires Valid() && kvStep + depth < numKvSteps
      requires keys.issued == kvStep + depth && values.issued == kvStep + depth
      requires keys.released[0] > kvStep && keys.released[1] > kvStep
      requires values.released[0] > kvStep && values.released[1] > kvStep
      modifies this, slots
      ensures Valid()
      ensures keys == old(keys).(issued := kvStep + depth + 1)
      ensures values == old(values).(issued := kvStep + depth + 1)
    {
      var copied := Copy(Key);
      copied := Copy(Value);
    }

    /**
     * Where both groups and the memory work group stand at the start of kv
     * step `t` of the interleaving `Run` follows: every tile up to `t +
     * depth` copied, both groups done with the steps before `t` and holding
     * the key tile of step `t`.
     */
    predicate AtStep(t: nat)
      reads this
    {
      && keys.issued == values.issued == (if t + depth < numKvSteps then t + depth else numKvSteps)
      && keys.released == values.released == values.waited == [t, t]
      && keys.waited == if t < numKvSteps then [t + 1, t + 1] else [t, t]
    }

    /**
     * The priming copies of the memory work group (lines 188-191), then
     * both compute groups' wait for the first key tile (line 108).
     */
    method Prime()
      requires Valid() && keys == Progress(0, [0, 0], [0, 0]) && values == Progress(0, [0, 0], [0, 0])
      modifies this, slots
      ensures Valid() && AtStep(0)
    {
      for i := 0 to depth
        invariant Valid()
        invariant keys == Progress(i, [0, 0], [0, 0]) && values == Progress(i, [0, 0], [0, 0])
      {
        var copied := Copy(Key);
        copied := Copy(Value);
      }
      AwaitCopied(0, Key);
      AwaitCopied(1, Key);
    }

    /** Kv step `t` of both compute groups, then the memory step that refills the freed slot. */
    method Step(t: nat) returns (pair0: (int, int), pair1: (int, int))
      requires Valid() && t < numKvSteps && AtStep(t)
      modifies this, slots
      ensures Valid() && AtStep(t + 1)
      ensures pair0 == (t, t) && pair1 == (t, t)
    {
      var k0, v0 := ComputeStep(0, t);
      var k1, v1 := ComputeStep(1, t);
      pair0, pair1 := (k0, v0), (k1, v1);
      if t + depth < numKvSteps {
        MemoryStep(t);
      }
    }

    /**
     * The whole kernel body for one grid cell, interleaved step by step: the
     * priming copies, both groups' first key wait (line 108), then per kv
     * step both compute groups and the memory step that refills the slot
     * just freed. No wait blocks, every group ends having read and released
     * every tile, and `tilesRead[2 * t + wg]` is the pair of tiles group
     * `wg` read at step `t`.
     */
    method Run() returns (tilesRead: seq<(int, int)>)
      requires Valid() && keys == Progress(0, [0, 0], [0, 0]) && values == Progress(0, [0, 0], [0, 0])
      modifies this, slots
      ensures Valid()
      ensures keys == Progress(numKvSteps, [numKvSteps, numKvSteps], [numKvSteps, numKvSteps])
      ensures values == Progress(numKvSteps, [numKvSteps, numKvSteps], [numKvSteps, numKvSteps])
      ensures |tilesRead| == 2 * numKvSteps
      ensures forall i | 0 <= i < |tilesRead| :: tilesRead[i] == (i / 2, i / 2)
    {
      Prime();
      tilesRead := [];
      for t := 0 to numKvSteps
        invariant Valid() && AtStep(t)
        invariant |tilesRead| == 2 * t
        invariant forall i | 0 <= i < |tilesRead| :: tilesRead[i] == (i / 2, i / 2)
      {
        var pair0, pair1 := Step(t);
        assert (2 * t) / 2 == t && (2 * t + 1) / 2 == t;
        tilesRead := tilesRead + [pair0, pair1];
      }
    }
  }
}
