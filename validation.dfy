/**
 * Entry-time validation of the FlashAttention-3 kernel for Mosaic GPU.
 *
 * Two layers of checks run before any work is launched: the tuning
 * configuration's own checks (`TuningConfig.__post_init__`) and the ordered
 * shape, dtype and divisibility checks at the top of `attention` and
 * `attention_with_pipeline_emitter`. Each check either passes or raises; the
 * model returns the first failing check together with the Python exception
 * type it raises. Configuration fields are Python integers and may be zero or
 * negative, so Python's flooring `//` and `%` are written out.
 */
module Validation {
  import opened Wrappers

  // ---------------------------------------------------------------------
  // Python integer arithmetic

  /** Python's `a // b`: the quotient rounded toward negative infinity. */
  function FloorDiv(a: int, b: int): (q: int)
    requires b != 0
    ensures b > 0 ==> b * q <= a < b * q + b
    ensures b < 0 ==> b * q + b < a <= b * q
  {
    if b > 0 then a / b else (-a) / (-b)
  }

  /** Python's `a % b`: the remainder takes the sign of the divisor. */
  function FloorMod(a: int, b: int): (r: int)
    requires b != 0
    ensures a == b * FloorDiv(a, b) + r
    ensures b > 0 ==> 0 <= r < b
    ensures b < 0 ==> b < r <= 0
  {
    a - b * FloorDiv(a, b)
  }

  /** A multiple of `c` leaves no Euclidean remainder. */
  lemma MultipleHasNoRemainder(k: int, c: int)
    requires c != 0
    ensures (c * k) % c == 0
  {
    var a := c * k;
    var q, r := a / c, a % c;
    assert a == c * q + r && 0 <= r < if c > 0 then c else -c;
    assert c * (k - q) == r;
    if k - q > 0 {
      MulAtLeast(c, k - q);
    } else if k - q < 0 {
      MulAtLeast(c, q - k);
    }
  }

  /** |c * m| >= |c| when m >= 1 (the step the solver does not take alone). */
  lemma MulAtLeast(c: int, m: int)
    requires m >= 1
    ensures c > 0 ==> c * m >= c
    ensures c < 0 ==> c * m <= c
  {
    assert c * m == c + c * (m - 1);
    if c > 0 {
      assert c * (m - 1) >= 0;
    } else if c < 0 {
      assert c * (m - 1) <= 0;
    }
  }

  /** The Python remainder is zero exactly when `b` divides `a`. */
  lemma {:induction false} FloorModZeroIffDivides(a: int, b: int)
    requires b != 0
    ensures FloorMod(a, b) == 0 <==> a % b == 0
  {
    if FloorMod(a, b) == 0 {
      assert a == b * FloorDiv(a, b);
      MultipleHasNoRemainder(FloorDiv(a, b), b);
    }
    if a % b == 0 {
      var k := a / b;
      assert a == b * k;
      if b > 0 {
        assert FloorDiv(a, b) == a / b;
      } else {
        assert -a == (-b) * k;
        MultipleHasNoRemainder(k, -b);
        assert (-a) % (-b) == 0;
        assert FloorDiv(a, b) == (-a) / (-b);
        assert -a == (-b) * FloorDiv(a, b);
      }
    }
  }

  // ---------------------------------------------------------------------
  // Inputs and outcomes

  /** Element types the checks distinguish. */
  datatype DType = Float16 | BFloat16 | Float32 | Int32

  /** What the entry checks see of an array argument. */
  datatype Tensor = Tensor(shape: seq<nat>, dtype: DType)

  /** `TuningConfig` (lines 30-35). */
  datatype TuningConfig = TuningConfig(
    blockQ: int,
    blockKv: int,
    maxConcurrentSteps: int,
    useScheduleBarrier: bool)

  /** The Python exception type a failing check raises. */
  datatype ErrorKind = ValueError | NotImplementedError | ZeroDivisionError

  /** Every check, named after what it rejects. */
  datatype Check =
    | BlockQNotMultipleOf64     // line 38
    | BlockKvNotMultipleOf64    // line 40
    | TooFewConcurrentSteps     // line 42
    | RankNot4                  // line 48
    | KShapeMismatch            // line 53
    | VShapeMismatch            // line 55
    | DTypeMismatch             // line 57
    | NoKvHeads                 // line 59: `% num_kv_heads` with zero heads
    | QHeadsNotDivisible        // line 59
    | HeadDimNotMultipleOf64    // line 62
    | UnsupportedDType          // line 64
    | ZeroBlockKv               // line 68: `// config.block_kv`
    | ZeroBlockQ                // line 234: `divmod(q_seq_len, block_q * 2)`
    | QSeqNotMultiple           // line 235
    | KvSeqNotMultiple          // line 160

  /** A rejected call: the exception raised and the check that raised it. */
  datatype Error = Error(kind: ErrorKind, check: Check)

  /** The exception type each check raises. */
  function KindOf(c: Check): ErrorKind {
    match c
    case NoKvHeads | ZeroBlockKv | ZeroBlockQ => ZeroDivisionError
    case UnsupportedDType | QSeqNotMultiple => NotImplementedError
    case _ => ValueError
  }

  /** The order in which the source reaches the checks. */
  function Position(c: Check): nat {
    match c
    case BlockQNotMultipleOf64 => 0
    case BlockKvNotMultipleOf64 => 1
    case TooFewConcurrentSteps => 2
    case RankNot4 => 3
    case KShapeMismatch => 4
    case VShapeMismatch => 5
    case DTypeMismatch => 6
    case NoKvHeads => 7
    case QHeadsNotDivisible => 8
    case HeadDimNotMultipleOf64 => 9
    case UnsupportedDType => 10
    case ZeroBlockKv => 11
    case ZeroBlockQ => 12
    case QSeqNotMultiple => 13
    case KvSeqNotMultiple => 14
  }

  // ---------------------------------------------------------------------
  // TuningConfig.__post_init__ (lines 37-43)

  /** Whether configuration check `c`, judged on its own, rejects `cfg`. */
  predicate ConfigViolates(cfg: TuningConfig, c: Check) {
    match c
    case BlockQNotMultipleOf64 => cfg.blockQ % 64 != 0
    case BlockKvNotMultipleOf64 => cfg.blockKv % 64 != 0
    case TooFewConcurrentSteps => cfg.maxConcurrentSteps < 2
    case _ => false
  }

  /**
   * `TuningConfig.__post_init__`: `None` when the configuration is accepted,
   * otherwise the earliest check that rejects it.
   */
  function ValidateTuningConfig(cfg: TuningConfig): (r: Option<Error>)
    ensures r.None? <==>
      cfg.blockQ % 64 == 0 && cfg.blockKv % 64 == 0 && cfg.maxConcurrentSteps >= 2
    ensures r.Some? ==>
      && r.value.kind == ValueError
      && ConfigViolates(cfg, r.value.check)
      && forall c: Check :: Position(c) < Position(r.value.check) ==> !ConfigViolates(cfg, c)
    ensures r.None? <==> forall c: Check :: !ConfigViolates(cfg, c)
  {
    FloorModZeroIffDivides(cfg.blockQ, 64);
    FloorModZeroIffDivides(cfg.blockKv, 64);
    if FloorMod(cfg.blockQ, 64) != 0 then Some(Error(ValueError, BlockQNotMultipleOf64))
    else if FloorMod(cfg.blockKv, 64) != 0 then Some(Error(ValueError, BlockKvNotMultipleOf64))
    else if cfg.maxConcurrentSteps < 2 then Some(Error(ValueError, TooFewConcurrentSteps))
    else None
  }

  // ---------------------------------------------------------------------
  // Entry checks of `attention` (lines 48-69, 160-161, 234-236) and of
  // `attention_with_pipeline_emitter` (lines 264-290)

  /** Which entry point: the hand-pipelined kernel or the pipeline-emitter one. */
  datatype Variant = HandPipelined | PipelineEmitter

  predicate AllRank4(q: Tensor, k: Tensor, v: Tensor) {
    |q.shape| == 4 && |k.shape| == 4 && |v.shape| == 4
  }

  /** `kv_shape` (lines 52, 268): batch and head_dim of q, length and heads of k. */
  function ExpectedKvShape(q: Tensor, k: Tensor): seq<nat>
    requires |q.shape| == 4 && |k.shape| == 4
  {
    [q.shape[0], k.shape[1], k.shape[2], q.shape[3]]
  }

  /**
   * Whether entry check `c`, judged on its own, rejects the call. `line55`
   * is the shape that the second shape check compares with `kv_shape`.
   */
  predicate EntryViolates(variant: Variant, c: Check, q: Tensor, k: Tensor, v: Tensor,
                          line55: seq<nat>, cfg: TuningConfig)
  {
    match c
    case RankNot4 => !AllRank4(q, k, v)
    case KShapeMismatch => AllRank4(q, k, v) && k.shape != ExpectedKvShape(q, k)
    case VShapeMismatch => AllRank4(q, k, v) && line55 != ExpectedKvShape(q, k)
    case DTypeMismatch => q.dtype != k.dtype || q.dtype != v.dtype
    case NoKvHeads => AllRank4(q, k, v) && k.shape[2] == 0
    case QHeadsNotDivisible =>
      AllRank4(q, k, v) && k.shape[2] != 0 && q.shape[2] % k.shape[2] != 0
    case HeadDimNotMultipleOf64 => AllRank4(q, k, v) && q.shape[3] % 64 != 0
    case UnsupportedDType => q.dtype != Float16 && q.dtype != BFloat16
    case ZeroBlockKv => cfg.blockKv == 0
    case ZeroBlockQ => cfg.blockQ == 0
    case QSeqNotMultiple =>
      AllRank4(q, k, v) && cfg.blockQ != 0 && q.shape[1] % (2 * cfg.blockQ) != 0
    case KvSeqNotMultiple =>
      variant == HandPipelined && AllRank4(q, k, v) && cfg.blockKv != 0 &&
      k.shape[1] % cfg.blockKv != 0
    case _ => false
  }

  /** Everything the kernel launch is sized from once the checks pass. */
  datatype LaunchPlan = LaunchPlan(
    batchSize: nat,
    qSeqLen: nat,
    numQHeads: nat,
    headDim: nat,
    kvSeqLen: nat,
    numKvHeads: nat,
    qHeadsPerKvHead: int,   // line 61
    blockQ: int,
    blockKv: int,
    depth: int,             // lines 67-69: the effective pipeline depth
    numQTiles: int,         // line 234
    numKvSteps: int)        // lines 163, 201, 381: kv_seq_len // block_kv

  /** `min(max_concurrent_steps, kv_seq_len // block_kv)` (lines 67-69, 283-285). */
  function EffectiveDepth(maxConcurrentSteps: int, numKvSteps: int): (d: int)
    ensures d <= maxConcurrentSteps && d <= numKvSteps
    ensures d == maxConcurrentSteps || d == numKvSteps
  {
    if numKvSteps < maxConcurrentSteps then numKvSteps else maxConcurrentSteps
  }

  /** Position of the last check on the operands alone (line 64). */
  const LastOperandCheck: nat := 10

  /**
   * The operand checks (lines 48-65): ranks, shapes, dtypes and head counts,
   * in order; the first one that fails, if any.
   */
  function OperandChecks(variant: Variant, q: Tensor, k: Tensor, v: Tensor,
                         line55: seq<nat>, cfg: TuningConfig): (r: Option<Error>)
    ensures r.Some? ==>
      && r.value.kind == KindOf(r.value.check)
      && Position(r.value.check) <= LastOperandCheck
      && EntryViolates(variant, r.value.check, q, k, v, line55, cfg)
      && forall c: Check :: Position(c) < Position(r.value.check) ==>
           !EntryViolates(variant, c, q, k, v, line55, cfg)
    ensures r.None? <==>
      forall c: Check :: Position(c) <= LastOperandCheck ==> !EntryViolates(variant, c, q, k, v, line55, cfg)
    ensures r.None? ==>
      && AllRank4(q, k, v) && k.shape == ExpectedKvShape(q, k)
      && q.dtype == k.dtype == v.dtype && (q.dtype == Float16 || q.dtype == BFloat16)
      && k.shape[2] > 0 && q.shape[2] % k.shape[2] == 0 && q.shape[3] % 64 == 0
  {
    if !AllRank4(q, k, v) then Some(Error(ValueError, RankNot4))
    else
      var kvShape := ExpectedKvShape(q, k);
      if k.shape != kvShape then Some(Error(ValueError, KShapeMismatch))
      else if line55 != kvShape then Some(Error(ValueError, VShapeMismatch))
      else if q.dtype != k.dtype || q.dtype != v.dtype then Some(Error(ValueError, DTypeMismatch))
      else if k.shape[2] == 0 then Some(Error(ZeroDivisionError, NoKvHeads))
      else
        FloorModZeroIffDivides(q.shape[2], k.shape[2]);
        FloorModZeroIffDivides(q.shape[3], 64);
        if FloorMod(q.shape[2], k.shape[2]) != 0 then Some(Error(ValueError, QHeadsNotDivisible))
        else if FloorMod(q.shape[3], 64) != 0 then Some(Error(ValueError, HeadDimNotMultipleOf64))
        else if q.dtype != Float16 && q.dtype != BFloat16 then
          Some(Error(NotImplementedError, UnsupportedDType))
        else None
  }

  /**
   * The checks on the block sizes once the operands passed (lines 68,
   * 234-236 and, for `attention` only, 160), in the order the source reaches
   * them, and the launch plan when they pass.
   */
  function TileChecks(variant: Variant, q: Tensor, k: Tensor, v: Tensor,
                      line55: seq<nat>, cfg: TuningConfig): (r: Result<LaunchPlan, Error>)
    requires AllRank4(q, k, v) && k.shape[2] > 0
    ensures r.Err? ==>
      && r.error.kind == KindOf(r.error.check)
      && LastOperandCheck < Position(r.error.check)
      && EntryViolates(variant, r.error.check, q, k, v, line55, cfg)
      && forall c: Check :: LastOperandCheck < Position(c) < Position(r.error.check) ==>
           !EntryViolates(variant, c, q, k, v, line55, cfg)
    ensures r.Ok? <==>
      forall c: Check :: LastOperandCheck < Position(c) ==> !EntryViolates(variant, c, q, k, v, line55, cfg)
    ensures r.Ok? ==>
      && r.value.batchSize == q.shape[0] && r.value.qSeqLen == q.shape[1]
      && r.value.numQHeads == q.shape[2] && r.value.headDim == q.shape[3]
      && r.value.kvSeqLen == k.shape[1] && r.value.numKvHeads == k.shape[2]
      && r.value.blockQ == cfg.blockQ && r.value.blockKv == cfg.blockKv
      && r.value.qHeadsPerKvHead == FloorDiv(q.shape[2], k.shape[2])
      && r.value.numQTiles * (2 * r.value.blockQ) == r.value.qSeqLen
      && r.value.blockKv != 0
      && r.value.numKvSteps == FloorDiv(r.value.kvSeqLen, r.value.blockKv)
      && (variant == HandPipelined ==> r.value.numKvSteps * r.value.blockKv == r.value.kvSeqLen)
      && r.value.depth == EffectiveDepth(cfg.maxConcurrentSteps, r.value.numKvSteps)
  {
    var qSeqLen, kvSeqLen := q.shape[1], k.shape[1];
    if cfg.blockKv == 0 then Err(Error(ZeroDivisionError, ZeroBlockKv))
    else if cfg.blockQ * 2 == 0 then Err(Error(ZeroDivisionError, ZeroBlockQ))
    else
      FloorModZeroIffDivides(qSeqLen, cfg.blockQ * 2);
      FloorModZeroIffDivides(kvSeqLen, cfg.blockKv);
      var numKvSteps := FloorDiv(kvSeqLen, cfg.blockKv);
      if FloorMod(qSeqLen, cfg.blockQ * 2) != 0 then Err(Error(NotImplementedError, QSeqNotMultiple))
      else if variant == HandPipelined && FloorMod(kvSeqLen, cfg.blockKv) != 0 then
        Err(Error(ValueError, KvSeqNotMultiple))
      else
        Ok(LaunchPlan(q.shape[0], qSeqLen, q.shape[2], q.shape[3], kvSeqLen, k.shape[2],
                      FloorDiv(q.shape[2], k.shape[2]), cfg.blockQ, cfg.blockKv,
                      EffectiveDepth(cfg.maxConcurrentSteps, numKvSteps),
                      FloorDiv(qSeqLen, cfg.blockQ * 2), numKvSteps))
  }

  /**
   * The entry prologue shared by both entry points: the first failing check,
   * or the launch plan when every check passes.
   */
  function EntryChecks(variant: Variant, q: Tensor, k: Tensor, v: Tensor,
                       line55: seq<nat>, cfg: TuningConfig): (r: Result<LaunchPlan, Error>)
    ensures r.Err? ==>
      && r.error.kind == KindOf(r.error.check)
      && EntryViolates(variant, r.error.check, q, k, v, line55, cfg)
      && forall c: Check :: Position(c) < Position(r.error.check) ==>
           !EntryViolates(variant, c, q, k, v, line55, cfg)
    ensures r.Ok? <==> forall c: Check :: !EntryViolates(variant, c, q, k, v, line55, cfg)
    ensures r.Ok? ==>
      && AllRank4(q, k, v)
      && k.shape == ExpectedKvShape(q, k)
      && r.value.batchSize == q.shape[0] && r.value.qSeqLen == q.shape[1]
      && r.value.numQHeads == q.shape[2] && r.value.headDim == q.shape[3]
      && r.value.kvSeqLen == k.shape[1] && r.value.numKvHeads == k.shape[2]
      && r.value.blockQ == cfg.blockQ && r.value.blockKv == cfg.blockKv
      && q.dtype == k.dtype == v.dtype
      && (q.dtype == Float16 || q.dtype == BFloat16)
      && r.value.numKvHeads > 0
      && r.value.qHeadsPerKvHead * r.value.numKvHeads == r.value.numQHeads
      && r.value.headDim % 64 == 0
      && r.value.numQTiles * (2 * r.value.blockQ) == r.value.qSeqLen
      && r.value.blockKv != 0
      && r.value.numKvSteps == FloorDiv(r.value.kvSeqLen, r.value.blockKv)
      && (variant == HandPipelined ==> r.value.numKvSteps * r.value.blockKv == r.value.kvSeqLen)
      && r.value.depth == EffectiveDepth(cfg.maxConcurrentSteps, r.value.numKvSteps)
  {
    match OperandChecks(variant, q, k, v, line55, cfg)
    case Some(e) => Err(e)
    case None =>
      FloorModZeroIffDivides(q.shape[2], k.shape[2]);
      TileChecks(variant, q, k, v, line55, cfg)
  }

  /** `attention` as written: its second shape check (line 55) compares `k.shape` again. */
  function AttentionEntry(q: Tensor, k: Tensor, v: Tensor, cfg: TuningConfig): (r: Result<LaunchPlan, Error>)
    ensures r.Err? ==> r.error.check != VShapeMismatch
    ensures r.Ok? ==> r.value.numKvSteps * r.value.blockKv == r.value.kvSeqLen
  {
    EntryChecks(HandPipelined, q, k, v, k.shape, cfg)
  }

  /** `attention` with line 55 comparing `v.shape`, as its error message says it does. */
  function AttentionEntryIntended(q: Tensor, k: Tensor, v: Tensor, cfg: TuningConfig): (r: Result<LaunchPlan, Error>)
    ensures r.Ok? ==> AllRank4(q, k, v) && v.shape == k.shape == ExpectedKvShape(q, k)
  {
    EntryChecks(HandPipelined, q, k, v, v.shape, cfg)
  }

  /** `attention_with_pipeline_emitter` as written (line 271 repeats the `k.shape` comparison). */
  function PipelineEmitterEntry(q: Tensor, k: Tensor, v: Tensor, cfg: TuningConfig): (r: Result<LaunchPlan, Error>)
    ensures r.Err? ==> r.error.check != VShapeMismatch && r.error.check != KvSeqNotMultiple
    ensures r.Ok? ==> r.value.blockKv != 0 && r.value.numKvSteps == FloorDiv(r.value.kvSeqLen, r.value.blockKv)
  {
    EntryChecks(PipelineEmitter, q, k, v, k.shape, cfg)
  }

  /** As written, no call is ever rejected for the shape of `v`, beyond its rank. */
  lemma AttentionEntryIgnoresVShape(q: Tensor, k: Tensor, v: Tensor, v': Tensor, cfg: TuningConfig)
    requires v'.dtype == v.dtype && (|v'.shape| == 4 <==> |v.shape| == 4)
    ensures AttentionEntry(q, k, v, cfg) == AttentionEntry(q, k, v', cfg)
    ensures PipelineEmitterEntry(q, k, v, cfg) == PipelineEmitterEntry(q, k, v', cfg)
    ensures AttentionEntry(q, k, v, cfg).Err? ==> AttentionEntry(q, k, v, cfg).error.check != VShapeMismatch
  {
  }

  /**
   * A concrete call that shows the discrepancy: `v` has 256 rows where `k` has
   * 128, yet `attention` accepts it (the kernel reads only `v`'s first 128
   * rows, all in bounds); the intended check rejects it.
   */
  lemma VShapeMismatchAccepted()
    ensures
      var cfg := TuningConfig(64, 64, 2, true);
      var q := Tensor([1, 128, 1, 64], Float16);
      var k := Tensor([1, 128, 1, 64], Float16);
      var v := Tensor([1, 256, 1, 64], Float16);
      && AttentionEntry(q, k, v, cfg).Ok?
      && AttentionEntry(q, k, v, cfg).value.numKvSteps * AttentionEntry(q, k, v, cfg).value.blockKv <= v.shape[1]
      && AttentionEntryIntended(q, k, v, cfg) == Err(Error(ValueError, VShapeMismatch))
  {
    var cfg := TuningConfig(64, 64, 2, true);
    var q := Tensor([1, 128, 1, 64], Float16);
    var k := Tensor([1, 128, 1, 64], Float16);
    var v := Tensor([1, 256, 1, 64], Float16);
    var ok := AttentionEntry(q, k, v, cfg);
    assert ok.Ok? by {
      forall c: Check ensures !EntryViolates(HandPipelined, c, q, k, v, k.shape, cfg) {
        assert 128 % 128 == 0 && 128 % 64 == 0 && 64 % 64 == 0 && 1 % 1 == 0;
      }
    }
    assert EntryViolates(HandPipelined, VShapeMismatch, q, k, v, v.shape, cfg);
  }

  /**
   * The two entry points differ in one check only: the emitter variant never
   * raises the `kv_seq_len % block_kv` error, and otherwise agrees with
   * `attention` on every call.
   */
  lemma EmitterOmitsOnlyKvSeqCheck(q: Tensor, k: Tensor, v: Tensor, cfg: TuningConfig)
    ensures var a, e := AttentionEntry(q, k, v, cfg), PipelineEmitterEntry(q, k, v, cfg);
      && (e.Err? ==> e.error.check != KvSeqNotMultiple)
      && (a.Ok? ==> e == a)
      && (a.Err? && a.error.check != KvSeqNotMultiple ==> e == a)
      && (a.Err? && a.error.check == KvSeqNotMultiple ==> e.Ok?)
  {
  }

  // ---------------------------------------------------------------------
  // Block sizes of zero

  /**
   * As written, `block_q == 0` satisfies `block_q % 64 == 0`: the configuration
   * is accepted and `attention` then divides by zero at line 234.
   */
  lemma ZeroBlockQAccepted()
    ensures
      var cfg := TuningConfig(0, 64, 2, true);
      var t := Tensor([1, 128, 1, 64], Float16);
      && ValidateTuningConfig(cfg).None?
      && AttentionEntry(t, t, t, cfg) == Err(Error(ZeroDivisionError, ZeroBlockQ))
  {
    var cfg := TuningConfig(0, 64, 2, true);
    var t := Tensor([1, 128, 1, 64], Float16);
    assert 128 % 64 == 0 && 64 % 64 == 0 && 1 % 1 == 0;
    assert EntryViolates(HandPipelined, ZeroBlockQ, t, t, t, t.shape, cfg);
  }

  /** Whether configuration check `c` rejects `cfg` once it also demands a positive block size. */
  predicate IntendedConfigViolates(cfg: TuningConfig, c: Check) {
    match c
    case BlockQNotMultipleOf64 => cfg.blockQ <= 0 || cfg.blockQ % 64 != 0
    case BlockKvNotMultipleOf64 => cfg.blockKv <= 0 || cfg.blockKv % 64 != 0
    case TooFewConcurrentSteps => cfg.maxConcurrentSteps < 2
    case _ => false
  }

  /**
   * The configuration check with block sizes required to be positive
   * multiples of 64, as the tile shapes they size evidently need. The
   * checks keep the order of lines 38-43.
   */
  function ValidateTuningConfigIntended(cfg: TuningConfig): (r: Option<Error>)
    ensures r.None? <==>
      ValidateTuningConfig(cfg).None? && cfg.blockQ >= 64 && cfg.blockKv >= 64
    ensures r.Some? ==>
      && r.value.kind == ValueError
      && IntendedConfigViolates(cfg, r.value.check)
      && forall c: Check :: Position(c) < Position(r.value.check) ==> !IntendedConfigViolates(cfg, c)
    ensures r.None? <==> forall c: Check :: !IntendedConfigViolates(cfg, c)
  {
    FloorModZeroIffDivides(cfg.blockQ, 64);
    FloorModZeroIffDivides(cfg.blockKv, 64);
    if cfg.blockQ <= 0 || FloorMod(cfg.blockQ, 64) != 0 then Some(Error(ValueError, BlockQNotMultipleOf64))
    else if cfg.blockKv <= 0 || FloorMod(cfg.blockKv, 64) != 0 then Some(Error(ValueError, BlockKvNotMultipleOf64))
    else if cfg.maxConcurrentSteps < 2 then Some(Error(ValueError, TooFewConcurrentSteps))
    else None
  }

  /** Where the original accepts a block size, the intended check reports the same first failure. */
  lemma IntendedConfigKeepsOrder(cfg: TuningConfig)
    requires cfg.blockQ > 0 && cfg.blockKv > 0
    ensures ValidateTuningConfigIntended(cfg) == ValidateTuningConfig(cfg)
  {
  }

  /**
   * Under the intended configuration check, the entry prologue can no longer
   * fail by dividing by a block size, and an accepted call has at least one
   * query tile per row of heads and at least one pipeline slot per kv step.
   */
  lemma IntendedConfigNoBlockDivision(q: Tensor, k: Tensor, v: Tensor, cfg: TuningConfig)
    requires ValidateTuningConfigIntended(cfg).None?
    ensures var r := AttentionEntryIntended(q, k, v, cfg);
      && (r.Err? ==> r.error.check != ZeroBlockKv && r.error.check != ZeroBlockQ)
      && (r.Ok? ==> r.value.numQTiles >= 0 && r.value.numKvSteps >= 0)
      && (r.Ok? && r.value.numKvSteps > 0 ==> 1 <= r.value.depth <= r.value.numKvSteps)
  {
    var r := AttentionEntryIntended(q, k, v, cfg);
    if r.Ok? {
      var p := r.value;
      assert p.blockQ == cfg.blockQ > 0 && p.blockKv == cfg.blockKv > 0;
      if p.numQTiles < 0 {
        MulAtLeast(2 * p.blockQ, -p.numQTiles);
      }
      if p.numKvSteps < 0 {
        MulAtLeast(p.blockKv, -p.numKvSteps);
      }
    }
  }
}
