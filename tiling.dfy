/**
 * The integer index maps of the kernel: which query rows each compute work
 * group owns, which kv head a query head reads, which rows a kv tile spans,
 * and the order in which the memory work group copies kv tiles into the
 * circular buffer's slots.
 */
module Tiling {
  import opened Wrappers
  import opened Validation

  // ---------------------------------------------------------------------
  // Blocks of consecutive rows

  /** Row `row` lies in block `j` of size `b`, the rows [j*b, j*b + b). */
  predicate InBlock(row: int, j: int, b: int) {
    j * b <= row < j * b + b
  }

  /** No row lies in two different blocks of the same size. */
  lemma {:induction false} BlockUnique(row: int, j1: int, j2: int, b: int)
    requires b > 0 && InBlock(row, j1, b) && InBlock(row, j2, b)
    ensures j1 == j2
  {
    if j1 < j2 {
      assert j2 * b == j1 * b + b * (j2 - j1);
      MulAtLeast(b, j2 - j1);
    } else if j2 < j1 {
      assert j1 * b == j2 * b + b * (j1 - j2);
      MulAtLeast(b, j1 - j2);
    }
  }

  /** Blocks 0 .. m-1 of size b lie within the rows [0, m*b). */
  lemma {:induction false} BlockWithin(j: int, m: int, b: int)
    requires b > 0 && 0 <= j < m
    ensures 0 <= j * b && j * b + b <= m * b
  {
    MulAtLeast(b, m - j);
    assert m * b == j * b + b * (m - j);
  }

  /** Every row of [0, m*b) lies in one of the blocks 0 .. m-1. */
  lemma {:induction false} BlockOfRow(row: int, m: int, b: int)
    requires b > 0 && 0 <= row < m * b
    ensures 0 <= row / b < m && InBlock(row, row / b, b)
  {
    var j := row / b;
    assert row == b * j + row % b;
    if j < 0 {
      MulAtLeast(b, -j);
    }
    if j >= m {
      MulAtLeast(b, j - m + 1);
    }
  }

  // ---------------------------------------------------------------------
  // Query rows of a compute work group (lines 89, 234-236, 249, 300)

  /** `q_seq_base` (lines 89, 300): first query row of work group `wg` in grid cell `qTile`. */
  function QSeqBase(qTile: int, wg: int, blockQ: int): int {
    qTile * (2 * blockQ) + wg * blockQ
  }

  /** Work group `wg` of cell `qTile` owns block 2*qTile + wg of `blockQ` rows. */
  lemma QSeqBaseIsBlock(qTile: int, wg: int, blockQ: int)
    ensures QSeqBase(qTile, wg, blockQ) == (2 * qTile + wg) * blockQ
  {
  }

  /**
   * The rows owned by a compute work group of a grid cell lie within the
   * query sequence.
   */
  lemma QRowsInBounds(numQTiles: int, blockQ: int, qTile: int, wg: int)
    requires blockQ > 0 && 0 <= qTile < numQTiles && 0 <= wg < 2
    ensures 0 <= QSeqBase(qTile, wg, blockQ)
    ensures QSeqBase(qTile, wg, blockQ) + blockQ <= numQTiles * (2 * blockQ)
  {
    QSeqBaseIsBlock(qTile, wg, blockQ);
    BlockWithin(2 * qTile + wg, 2 * numQTiles, blockQ);
  }

  /**
   * The grid cell and compute work group that own query row `row`: every row
   * of the sequence has one, and it lies in that owner's rows.
   */
  function QRowOwner(row: int, numQTiles: int, blockQ: int): (owner: (int, int))
    requires blockQ > 0 && 0 <= row < numQTiles * (2 * blockQ)
    ensures 0 <= owner.0 < numQTiles && 0 <= owner.1 < 2
    ensures QSeqBase(owner.0, owner.1, blockQ) <= row < QSeqBase(owner.0, owner.1, blockQ) + blockQ
  {
    assert numQTiles * (2 * blockQ) == (2 * numQTiles) * blockQ;
    BlockOfRow(row, 2 * numQTiles, blockQ);
    var j := row / blockQ;
    QSeqBaseIsBlock(j / 2, j % 2, blockQ);
    (j / 2, j % 2)
  }

  /**
   * No query row is owned twice: the rows of two (grid cell, work group)
   * pairs overlap only when the pairs are equal.
   */
  lemma QRowsDisjoint(blockQ: int, t1: int, w1: int, t2: int, w2: int, row: int)
    requires blockQ > 0 && 0 <= w1 < 2 && 0 <= w2 < 2
    requires QSeqBase(t1, w1, blockQ) <= row < QSeqBase(t1, w1, blockQ) + blockQ
    requires QSeqBase(t2, w2, blockQ) <= row < QSeqBase(t2, w2, blockQ) + blockQ
    ensures t1 == t2 && w1 == w2
  {
    QSeqBaseIsBlock(t1, w1, blockQ);
    QSeqBaseIsBlock(t2, w2, blockQ);
    BlockUnique(row, 2 * t1 + w1, 2 * t2 + w2, blockQ);
  }

  /**
   * For an accepted `attention` call, the query rows of the launched grid
   * (lines 234, 249) partition [0, q_seq_len) exactly.
   */
  lemma AcceptedQRowsPartition(q: Tensor, k: Tensor, v: Tensor, cfg: TuningConfig, row: int)
    requires AttentionEntry(q, k, v, cfg).Ok? && cfg.blockQ > 0
    ensures var p := AttentionEntry(q, k, v, cfg).value;
      0 <= row < p.qSeqLen <==>
        exists t, w :: 0 <= t < p.numQTiles && 0 <= w < 2 &&
          QSeqBase(t, w, p.blockQ) <= row < QSeqBase(t, w, p.blockQ) + p.blockQ
  {
    var p := AttentionEntry(q, k, v, cfg).value;
    if 0 <= row < p.qSeqLen {
      var owner := QRowOwner(row, p.numQTiles, p.blockQ);
    }
    if exists t, w :: 0 <= t < p.numQTiles && 0 <= w < 2 &&
         QSeqBase(t, w, p.blockQ) <= row < QSeqBase(t, w, p.blockQ) + p.blockQ {
      var t, w :| 0 <= t < p.numQTiles && 0 <= w < 2 &&
         QSeqBase(t, w, p.blockQ) <= row < QSeqBase(t, w, p.blockQ) + p.blockQ;
      QRowsInBounds(p.numQTiles, p.blockQ, t, w);
    }
  }

  // ---------------------------------------------------------------------
  // Grouped-query heads (lines 59-61, 187, 302)

  /**
   * `kv_head = lax.div(q_head, q_heads_per_kv_head)`. Both operands are
   * non-negative, where truncating and flooring division agree.
   */
  function KvHead(qHead: nat, qHeadsPerKvHead: int): (h: nat)
    requires qHeadsPerKvHead > 0
    ensures InBlock(qHead, h, qHeadsPerKvHead)
  {
    qHead / qHeadsPerKvHead
  }

  /** A query head of the grid reads a kv head that exists. */
  lemma KvHeadInRange(qHead: nat, numKvHeads: nat, qHeadsPerKvHead: int)
    requires qHeadsPerKvHead > 0 && qHead < qHeadsPerKvHead * numKvHeads
    ensures KvHead(qHead, qHeadsPerKvHead) < numKvHeads
  {
    assert qHeadsPerKvHead * numKvHeads == numKvHeads * qHeadsPerKvHead;
    BlockOfRow(qHead, numKvHeads, qHeadsPerKvHead);
  }

  /** The query heads that kv head `kvHead` serves, in increasing order. */
  function ServedQHeads(kvHead: nat, qHeadsPerKvHead: nat): (heads: seq<nat>)
    ensures |heads| == qHeadsPerKvHead
    ensures forall i, j :: 0 <= i < j < |heads| ==> heads[i] < heads[j]
  {
    seq(qHeadsPerKvHead, j requires 0 <= j => kvHead * qHeadsPerKvHead + j)
  }

  /**
   * Each kv head serves exactly `q_heads_per_kv_head` query heads: a query
   * head maps to `kvHead` exactly when it is one of `ServedQHeads(kvHead)`.
   */
  lemma KvHeadServesExactly(kvHead: nat, qHeadsPerKvHead: int, qHead: nat)
    requires qHeadsPerKvHead > 0
    ensures KvHead(qHead, qHeadsPerKvHead) == kvHead <==> qHead in ServedQHeads(kvHead, qHeadsPerKvHead)
  {
    var heads := ServedQHeads(kvHead, qHeadsPerKvHead);
    if KvHead(qHead, qHeadsPerKvHead) == kvHead {
      assert heads[qHead - kvHead * qHeadsPerKvHead] == qHead;
    }
    if qHead in heads {
      var j :| 0 <= j < |heads| && heads[j] == qHead;
      BlockUnique(qHead, KvHead(qHead, qHeadsPerKvHead), kvHead, qHeadsPerKvHead);
    }
  }

  // ---------------------------------------------------------------------
  // Kv tiles (lines 189, 196) and the memory work group's copies (188-201)

  /** First key/value row of kv tile `t`: `pl.ds(t * block_kv, block_kv)`. */
  function KvTileStart(t: int, blockKv: int): int {
    t * blockKv
  }

  /**
   * For an accepted `attention` call, every kv tile the loops visit lies
   * within the key/value sequence, and the tiles partition it.
   */
  lemma AcceptedKvTilesPartition(q: Tensor, k: Tensor, v: Tensor, cfg: TuningConfig, t: int, row: int)
    requires AttentionEntry(q, k, v, cfg).Ok? && cfg.blockKv > 0
    ensures var p := AttentionEntry(q, k, v, cfg).value;
      0 <= t < p.numKvSteps ==>
        0 <= KvTileStart(t, p.blockKv) && KvTileStart(t, p.blockKv) + p.blockKv <= p.kvSeqLen
    ensures var p := AttentionEntry(q, k, v, cfg).value;
      0 <= row < p.kvSeqLen ==>
        0 <= row / p.blockKv < p.numKvSteps &&
        KvTileStart(row / p.blockKv, p.blockKv) <= row < KvTileStart(row / p.blockKv, p.blockKv) + p.blockKv
  {
    var p := AttentionEntry(q, k, v, cfg).value;
    if 0 <= t < p.numKvSteps {
      BlockWithin(t, p.numKvSteps, p.blockKv);
    }
    if 0 <= row < p.kvSeqLen {
      BlockOfRow(row, p.numKvSteps, p.blockKv);
    }
  }

  /**
   * The pipeline-emitter variant drives `kv_seq_len // block_kv` steps
   * (line 381); its tiles stay within the sequence even when the length is
   * not a multiple of the block.
   */
  lemma EmitterKvTilesInBounds(q: Tensor, k: Tensor, v: Tensor, cfg: TuningConfig, t: int)
    requires PipelineEmitterEntry(q, k, v, cfg).Ok? && cfg.blockKv > 0
    ensures var p := PipelineEmitterEntry(q, k, v, cfg).value;
      0 <= t < p.numKvSteps ==>
        0 <= KvTileStart(t, p.blockKv) && KvTileStart(t, p.blockKv) + p.blockKv <= p.kvSeqLen
  {
    var p := PipelineEmitterEntry(q, k, v, cfg).value;
    if 0 <= t < p.numKvSteps {
      BlockWithin(t, p.numKvSteps, p.blockKv);
      assert p.numKvSteps == FloorDiv(p.kvSeqLen, p.blockKv);
    }
  }

  /** Consecutive uses of a slot are `depth` tiles apart. */
  lemma SlotOfNextUse(t: int, depth: int)
    requires t >= 0 && depth > 0
    ensures (t + depth) % depth == t % depth && (t + depth) / depth == t / depth + 1
  {
    var q, r := t / depth, t % depth;
    assert t + depth == depth * (q + 1) + r;
    DivModUnique(t + depth, q + 1, r, depth);
  }

  /** Euclidean division is unique. */
  lemma {:induction false} DivModUnique(a: int, q: int, r: int, d: int)
    requires d > 0 && a == d * q + r && 0 <= r < d
    ensures a / d == q && a % d == r
  {
    var q', r' := a / d, a % d;
    assert d * q' + r' == d * q + r;
    assert d * (q' - q) == r - r';
    if q' > q {
      MulAtLeast(d, q' - q);
    } else if q' < q {
      MulAtLeast(d, q - q');
    }
  }

  /** One copy issued by the memory work group. */
  datatype TileCopy = TileCopy(
    tile: int,                  // the kv tile copied (its `tma_step`)
    slot: int,                  // the circular-buffer slot it is copied into
    awaitsRelease: Option<int>) // the kv step whose release of that slot it waits for

  /**
   * The memory work group (lines 186-201): the priming loop copies tiles
   * 0 .. depth-1 into slots 0 .. depth-1 without waiting; then step `s` of its
   * `fori_loop` waits until slot `s mod depth` is released by kv step `s` and
   * copies tile `s + depth` into it. Every tile is copied exactly once, in
   * order, into slot `t mod depth`, and a reused slot always waits for the
   * release of the tile it held before.
   */
  method MemoryWorkGroupCopies(maxConcurrentSteps: int, numKvSteps: int) returns (copies: seq<TileCopy>)
    requires maxConcurrentSteps >= 2 && numKvSteps >= 0
    ensures var depth := EffectiveDepth(maxConcurrentSteps, numKvSteps);
      && |copies| == numKvSteps
      && forall t :: 0 <= t < numKvSteps ==>
           copies[t] == TileCopy(t, t % depth, if t < depth then None else Some(t - depth))
  {
    var depth := EffectiveDepth(maxConcurrentSteps, numKvSteps);
    copies := [];
    for i := 0 to depth
      invariant |copies| == i
      invariant forall t :: 0 <= t < i ==> copies[t] == TileCopy(t, t % depth, None)
    {
      DivModUnique(i, 0, i, depth);
      copies := copies + [TileCopy(i, i, None)];
    }
    for kvStep := 0 to numKvSteps - depth
      invariant |copies| == depth + kvStep
      invariant forall t :: 0 <= t < depth + kvStep ==>
        copies[t] == TileCopy(t, t % depth, if t < depth then None else Some(t - depth))
    {
      var tmaStep := kvStep + depth;
      var tmaSlot := kvStep % depth;
      SlotOfNextUse(kvStep, depth);
      copies := copies + [TileCopy(tmaStep, tmaSlot, Some(kvStep))];
    }
  }
}
