/** FlowRandomVariable: a stack of planar layers applied in list order to
    samples of a base distribution, each layer adding its log-determinant,
    evaluated at the layer's input, to the running log-density. */
module FlowRandomVariables {
  import opened Common
  import opened PlanarFlows

  // ---------------------------------------------------------------------
  // The stack, one sample at a time

  /** Every layer of the stack has rows of width d and a row g. */
  predicate ReachesRow(stack: seq<PlanarFlow>, g: nat, d: nat) {
    forall k :: 0 <= k < |stack| ==> stack[k].Shaped(d) && g < stack[k].NFlows()
  }

  /** The layers applied to one sample in list order, each with row g. */
  function StackOut(nm: Numerics, stack: seq<PlanarFlow>, g: nat, x: Vec): (y: Vec)
    requires ReachesRow(stack, g, |x|)
    ensures |y| == |x|
    decreases |stack|
  {
    if |stack| == 0 then x else StackOut(nm, stack[1..], g, Apply(nm, stack[0], g, x))
  }

  /** The sum over the first n layers k of ldj_k(x_k), where x_0 = x and
      x_k is x after the first k layers: each log-determinant is taken at the
      layer's input. */
  function LogDetSum(nm: Numerics, stack: seq<PlanarFlow>, g: nat, x: Vec, n: nat): real
    requires ReachesRow(stack, g, |x|) && n <= |stack|
  {
    if n == 0 then 0.0
    else LogDetSum(nm, stack, g, x, n - 1) + LogDetAt(nm, stack[n - 1], g, StackOut(nm, stack[..n - 1], g, x))
  }

  /** Running the first k + 1 layers is running the first k, then layer k. */
  lemma {:induction false} StackOutSnoc(nm: Numerics, stack: seq<PlanarFlow>, g: nat, x: Vec, k: nat)
    requires ReachesRow(stack, g, |x|) && k < |stack|
    ensures StackOut(nm, stack[..k + 1], g, x) == Apply(nm, stack[k], g, StackOut(nm, stack[..k], g, x))
  {
    if k == 0 {
      assert stack[..1][1..] == stack[..0];
    } else {
      StackOutSnoc(nm, stack[1..], g, Apply(nm, stack[0], g, x), k - 1);
      assert stack[..k + 1][1..] == stack[1..][..k];
      assert stack[..k][1..] == stack[1..][..k - 1];
    }
  }

  // ---------------------------------------------------------------------
  // The stack over a batch

  /** Every layer fits the batch. */
  predicate StackFits(stack: seq<PlanarFlow>, xs: Batch, d: nat) {
    forall k :: 0 <= k < |stack| ==> Fits(stack[k], xs, d)
  }

  /** ys, lq is what the stack makes of samples xs with log-density lp: every
      sample x becomes StackOut(x), and its log-density grows by the sum of
      the layers' log-determinants, each at that layer's input. */
  predicate IsStackResult(nm: Numerics, stack: seq<PlanarFlow>, xs: Batch, lp: LogDensity, d: nat,
                          ys: Batch, lq: LogDensity)
    requires StackFits(stack, xs, d) && SameLayout(lp, xs)
  {
    && SameLayout(ys, xs) && SameLayout(lq, xs)
    && forall g, j :: 0 <= g < |xs| && 0 <= j < |xs[g]| ==>
         && ys[g][j] == StackOut(nm, stack, g, xs[g][j])
         && lq[g][j] == lp[g][j] + LogDetSum(nm, stack, g, xs[g][j], |stack|)
  }

  function AddDensities(a: LogDensity, b: LogDensity): (r: LogDensity)
    requires SameLayout(a, b)
    ensures SameLayout(r, a)
    ensures forall g, j :: 0 <= g < |a| && 0 <= j < |a[g]| ==> r[g][j] == a[g][j] + b[g][j]
  {
    seq(|a|, g requires 0 <= g < |a| =>
      seq(|a[g]|, j requires 0 <= j < |a[g]| => a[g][j] + b[g][j]))
  }

  /** The state of the layer loop before layer k: every sample has been
      through the first k layers, and its log-density has grown by their
      log-determinants. */
  predicate StackLoop(nm: Numerics, stack: seq<PlanarFlow>, xs: Batch, lp: LogDensity, d: nat, k: nat,
                      ys: Batch, lq: LogDensity)
    requires StackFits(stack, xs, d) && Conforms(xs, d) && SameLayout(lp, xs) && k <= |stack|
  {
    && SameLayout(ys, xs) && Conforms(ys, d) && SameLayout(lq, xs)
    && forall g, j :: 0 <= g < |xs| && 0 <= j < |xs[g]| ==>
         && ys[g][j] == StackOut(nm, stack[..k], g, xs[g][j])
         && lq[g][j] == lp[g][j] + LogDetSum(nm, stack, g, xs[g][j], k)
  }

  /** The loop of sample_log_prob over the layers: for each layer in order,
      add its log-determinant at the current samples, then transform them. */
  method RunLayers(nm: Numerics, stack: seq<PlanarFlow>, xs: Batch, lp: LogDensity, d: nat)
    returns (ys: Batch, lq: LogDensity)
    requires StackFits(stack, xs, d) && Conforms(xs, d) && SameLayout(lp, xs)
    ensures IsStackResult(nm, stack, xs, lp, d, ys, lq)
  {
    ys, lq := xs, lp;
    assert stack[..0] == [];
    for k := 0 to |stack|
      invariant StackLoop(nm, stack, xs, lp, d, k, ys, lq)
    {
      ys, lq := RunLayer(nm, stack, xs, lp, d, k, ys, lq);
    }
    assert stack[..|stack|] == stack;
  }

  /** One pass of the layer loop: layer k's log-determinant at the current
      samples is added, then layer k transforms them. */
  method RunLayer(nm: Numerics, stack: seq<PlanarFlow>, xs: Batch, lp: LogDensity, d: nat, k: nat,
                  ys: Batch, lq: LogDensity)
    returns (ys': Batch, lq': LogDensity)
    requires StackFits(stack, xs, d) && Conforms(xs, d) && SameLayout(lp, xs) && k < |stack|
    requires StackLoop(nm, stack, xs, lp, d, k, ys, lq)
    ensures StackLoop(nm, stack, xs, lp, d, k + 1, ys', lq')
  {
    lq' := AddDensities(lq, LogDet(nm, stack[k], ys, d));
    ys' := PlanarFlows.Transform(nm, stack[k], ys, d);
    forall g, j | 0 <= g < |xs| && 0 <= j < |xs[g]|
      ensures ys'[g][j] == StackOut(nm, stack[..k + 1], g, xs[g][j])
    {
      StackOutSnoc(nm, stack, g, xs[g][j], k);
    }
  }

  // ---------------------------------------------------------------------
  // The base distribution

  /** Either a distribution, of which the model keeps the per-coordinate
      log-density (its samples are drawn outside the model and passed in), or
      a precomputed (samples, log_prob) pair. */
  datatype BaseDist =
    | Distribution(coordLogPdf: (nat, real) -> real)
    | Precomputed(samples: Batch, logProb: LogDensity)

  /** The default base: independent standard normals in every coordinate. */
  function StandardNormal(nm: Numerics): BaseDist {
    Distribution((k: nat, x: real) => nm.normalLogPdf(x))
  }

  /** The sum of the first n coordinates' log-densities of one sample. */
  function SampleLogPdf(pdf: (nat, real) -> real, x: Vec, n: nat): real
    requires n <= |x|
  {
    if n == 0 then 0.0 else SampleLogPdf(pdf, x, n - 1) + pdf(n - 1, x[n - 1])
  }

  /** log_prob of a distribution summed over the feature axis only: one value
      per sample, per group. */
  function BaseLogProb(pdf: (nat, real) -> real, xs: Batch): (lp: LogDensity)
    ensures SameLayout(lp, xs)
    ensures forall g, j :: 0 <= g < |xs| && 0 <= j < |xs[g]| ==> lp[g][j] == SampleLogPdf(pdf, xs[g][j], |xs[g][j]|)
  {
    seq(|xs|, g requires 0 <= g < |xs| =>
      seq(|xs[g]|, j requires 0 <= j < |xs[g]| => SampleLogPdf(pdf, xs[g][j], |xs[g][j]|)))
  }

  datatype Sample = Sample(samples: Batch, logProb: LogDensity)

  // ---------------------------------------------------------------------
  // Column blocks (tf.slice / tf.concat along the feature axis)

  /** Columns [i * d, (i + 1) * d) of every row. */
  function ColumnBlock(all: seq<Vec>, i: nat, d: nat): (blk: seq<Vec>)
    requires forall r :: 0 <= r < |all| ==> i * d + d <= |all[r]|
    ensures |blk| == |all| && forall r :: 0 <= r < |all| ==> |blk[r]| == d
  {
    seq(|all|, r requires 0 <= r < |all| => all[r][i * d..i * d + d])
  }

  /** Concatenation of the blocks row by row, in list order. */
  function ConcatColumns(blocks: seq<seq<Vec>>, rows: nat): (all: seq<Vec>)
    requires forall i :: 0 <= i < |blocks| ==> |blocks[i]| == rows
  {
    seq(rows, r requires 0 <= r < rows => Flatten(seq(|blocks|, i requires 0 <= i < |blocks| => blocks[i][r])))
  }

  /** Every row of the column concatenation of blocks of width d is d times
      the number of blocks wide. */
  lemma ConcatColumnsWidth(blocks: seq<seq<Vec>>, rows: nat, d: nat)
    requires forall i :: 0 <= i < |blocks| ==> |blocks[i]| == rows
    requires forall i, r :: 0 <= i < |blocks| && 0 <= r < rows ==> |blocks[i][r]| == d
    ensures |ConcatColumns(blocks, rows)| == rows
    ensures forall r :: 0 <= r < rows ==> |ConcatColumns(blocks, rows)[r]| == d * |blocks|
  {
    var all := ConcatColumns(blocks, rows);
    forall r | 0 <= r < rows ensures |all[r]| == d * |blocks| {
      FlattenLength(seq(|blocks|, i requires 0 <= i < |blocks| => blocks[i][r]), d);
    }
  }

  /** Slicing block i back out of the column concatenation of blocks of width
      d gives block i. */
  lemma ColumnBlockOfConcat(blocks: seq<seq<Vec>>, rows: nat, d: nat, i: nat)
    requires forall i :: 0 <= i < |blocks| ==> |blocks[i]| == rows
    requires forall i, r :: 0 <= i < |blocks| && 0 <= r < rows ==> |blocks[i][r]| == d
    requires i < |blocks|
    ensures |ConcatColumns(blocks, rows)| == rows
    ensures forall r :: 0 <= r < rows ==> i * d + d <= |ConcatColumns(blocks, rows)[r]|
    ensures ColumnBlock(ConcatColumns(blocks, rows), i, d) == blocks[i]
  {
    var all := ConcatColumns(blocks, rows);
    ConcatColumnsWidth(blocks, rows, d);
    BlockBounds(i, |blocks|, d);
    forall r | 0 <= r < rows
      ensures all[r][i * d..i * d + d] == blocks[i][r]
    {
      var row := seq(|blocks|, i requires 0 <= i < |blocks| => blocks[i][r]);
      assert all[r] == Flatten(row);
      FlattenSlice(row, d, i);
    }
  }

  // ---------------------------------------------------------------------
  // The random variable

  class FlowRandomVariable {
    const nm: Numerics
    const dim: nat
    /** Keeps the constructor argument even when `flows` is supplied: the
        source assigns len(flows) to a misspelt attribute instead. */
    const numLayers: nat
    const flows: seq<PlanarFlow>
    const baseDist: BaseDist

    /** Every layer is a constructed flow of width dim, and all layers have
        the same number of parallel flows. */
    ghost predicate Valid() {
      && Sound(nm)
      && (forall k :: 0 <= k < |flows| ==> flows[k].Valid(nm) && flows[k].Shaped(dim))
      && (forall k :: 0 <= k < |flows| ==> flows[k].NFlows() == flows[0].NFlows())
    }

    /** A batch the layers can run on: one group per parallel flow, every
        sample of width dim. */
    predicate Accepts(xs: Batch) {
      Conforms(xs, dim) && forall k :: 0 <= k < |flows| ==> flows[k].NFlows() == |xs|
    }

    /** Either the supplied layers, or numLayers single flows of width dim
        built from the random draws. */
    constructor (nm: Numerics, dim: nat, numLayers: nat, flows: Option<seq<PlanarFlow>>,
                 baseDist: Option<BaseDist>, draws: seq<Params>)
      requires Sound(nm)
      requires flows.Some? ==>
                 && (forall k :: 0 <= k < |flows.value| ==> flows.value[k].Valid(nm) && flows.value[k].Shaped(dim))
                 && (forall k :: 0 <= k < |flows.value| ==> flows.value[k].NFlows() == flows.value[0].NFlows())
      requires flows.None? ==>
                 |draws| == numLayers && forall i :: 0 <= i < |draws| ==> draws[i].IsDraw(dim) && draws[i].Admissible()
      ensures Valid()
      ensures this.nm == nm && this.dim == dim && this.numLayers == numLayers
      ensures flows.Some? ==> this.flows == flows.value
      ensures flows.None? ==>
                && |this.flows| == numLayers
                && forall i :: 0 <= i < numLayers ==> this.flows[i] == Construct(nm, dim, None, None, None, draws[i])
      ensures this.baseDist == if baseDist.None? then StandardNormal(nm) else baseDist.value
    {
      var layers: seq<PlanarFlow>;
      if flows.None? {
        layers := [];
        for i := 0 to numLayers
          invariant |layers| == i
          invariant forall k :: 0 <= k < i ==> layers[k] == Construct(nm, dim, None, None, None, draws[k])
        {
          layers := layers + [Construct(nm, dim, None, None, None, draws[i])];
        }
      } else {
        layers := flows.value;
      }
      this.nm := nm;
      this.dim := dim;
      this.numLayers := numLayers;
      this.flows := layers;
      this.baseDist := if baseDist.None? then StandardNormal(nm) else baseDist.value;
    }

    /** The base samples and their log-density: the draws and their summed
        log-density for a distribution, the pair itself otherwise. */
    function Base(draws: Batch): Sample {
      match baseDist
      case Distribution(pdf) => Sample(draws, BaseLogProb(pdf, draws))
      case Precomputed(xs, lp) => Sample(xs, lp)
    }

    /** sample_log_prob: fails as the source does when a distribution base
        meets an empty layer list (it reads flows[0]); otherwise every sample
        is the layers applied in order to its base sample, and its log-density
        is the base log-density plus each layer's log-determinant at that
        layer's input. */
    method SampleLogProb(n: nat, draws: Batch) returns (r: Result<Sample>)
      requires Valid()
      requires baseDist.Distribution? && |flows| > 0 ==>
                 Accepts(draws) && forall g :: 0 <= g < |draws| ==> |draws[g]| == n
      requires baseDist.Precomputed? ==>
                 Accepts(baseDist.samples) && SameLayout(baseDist.logProb, baseDist.samples)
      ensures r.Err? <==> baseDist.Distribution? && |flows| == 0
      ensures r.Err? ==> r.error == IndexOutOfRange
      ensures r.Ok? ==> Accepts(Base(draws).samples) && SameLayout(Base(draws).logProb, Base(draws).samples)
      ensures r.Ok? ==> IsStackResult(nm, flows, Base(draws).samples, Base(draws).logProb, dim,
                                      r.value.samples, r.value.logProb)
    {
      if baseDist.Distribution? && |flows| == 0 {
        return Err(IndexOutOfRange);
      }
      var base := Base(draws);
      var samples, logProb := RunLayers(nm, flows, base.samples, base.logProb, dim);
      r := Ok(Sample(samples, logProb));
    }

    /** transform: the layers applied to x in list order; on the base samples
        this is exactly the sample part of SampleLogProb. */
    method Transform(x: Batch) returns (y: Batch)
      requires Valid() && Accepts(x)
      ensures SameLayout(y, x)
      ensures forall g, j :: 0 <= g < |x| && 0 <= j < |x[g]| ==> y[g][j] == StackOut(nm, flows, g, x[g][j])
    {
      y := x;
      for k := 0 to |flows|
        invariant SameLayout(y, x) && Conforms(y, dim)
        invariant forall g, j :: 0 <= g < |x| && 0 <= j < |x[g]| ==> y[g][j] == StackOut(nm, flows[..k], g, x[g][j])
      {
        y := PlanarFlows.Transform(nm, flows[k], y, dim);
        forall g, j | 0 <= g < |x| && 0 <= j < |x[g]|
          ensures y[g][j] == StackOut(nm, flows[..k + 1], g, x[g][j])
        {
          StackOutSnoc(nm, flows, g, x[g][j], k);
        }
      }
      assert flows[..|flows|] == flows;
    }

    /** get_all_flow_params: the w and u of layers 0 .. numLayers - 1
        concatenated column-wise, their b concatenated end to end. Fails when
        numLayers exceeds the layers held (the list is indexed past its end)
        or is zero (nothing to concatenate); otherwise slicing layer i back
        out of the result gives layer i's parameters. */
    function GetAllFlowParams(): (r: Result<Params>)
      requires Valid()
      ensures r.Err? <==> numLayers == 0 || numLayers > |flows|
      ensures r.Err? ==> r.error == if numLayers > |flows| then IndexOutOfRange else EmptyConcat
      ensures r.Ok? ==> RecoversLayers(r.value, flows[..numLayers], flows[0].NFlows(), dim)
    {
      if numLayers > |flows| then Err(IndexOutOfRange)
      else if numLayers == 0 then Err(EmptyConcat)
      else
        ConcatParamsRecovers(flows[..numLayers], flows[0].NFlows(), dim);
        Ok(ConcatParams(flows[..numLayers], flows[0].NFlows()))
    }

    /** get_all_flow_params as evidently intended, counting the layers
        actually held: fails only when there are none, and otherwise every
        layer's parameters are recovered from the result. */
    function AllFlowParams(): (r: Result<Params>)
      requires Valid()
      ensures r.Err? <==> |flows| == 0
      ensures r.Err? ==> r.error == EmptyConcat
      ensures r.Ok? ==> RecoversLayers(r.value, flows, flows[0].NFlows(), dim)
    {
      if |flows| == 0 then Err(EmptyConcat)
      else
        ConcatParamsRecovers(flows, flows[0].NFlows(), dim);
        Ok(ConcatParams(flows, flows[0].NFlows()))
    }
  }

  /** Layers of width d with the same number of rows. */
  predicate LayersOf(layers: seq<PlanarFlow>, rows: nat, d: nat) {
    forall i :: 0 <= i < |layers| ==> layers[i].Shaped(d) && layers[i].NFlows() == rows
  }

  /** The layers' w (or u) in list order. */
  function LayerWs(layers: seq<PlanarFlow>): (ws: seq<seq<Vec>>)
    ensures |ws| == |layers|
  {
    seq(|layers|, i requires 0 <= i < |layers| => layers[i].w)
  }

  function LayerUs(layers: seq<PlanarFlow>): (us: seq<seq<Vec>>)
    ensures |us| == |layers|
  {
    seq(|layers|, i requires 0 <= i < |layers| => layers[i].u)
  }

  /** The layers' b end to end. */
  function ConcatBiases(layers: seq<PlanarFlow>): seq<real> {
    Flatten(seq(|layers|, i requires 0 <= i < |layers| => layers[i].b))
  }

  /** The layers' w and u concatenated column-wise, their b end to end. */
  function ConcatParams(layers: seq<PlanarFlow>, rows: nat): Params
    requires forall i :: 0 <= i < |layers| ==> |layers[i].w| == |layers[i].u| == rows
  {
    Params(ConcatColumns(LayerWs(layers), rows), ConcatBiases(layers), ConcatColumns(LayerUs(layers), rows))
  }

  /** all has rows rows of |blocks| blocks of width d, and column block i of
      all is blocks[i]. */
  predicate ColumnsHold(all: seq<Vec>, blocks: seq<seq<Vec>>, rows: nat, d: nat) {
    && |all| == rows
    && (forall g :: 0 <= g < rows ==> |all[g]| == d * |blocks|)
    && (forall i :: 0 <= i < |blocks| ==>
          && (forall g :: 0 <= g < rows ==> i * d + d <= |all[g]|)
          && ColumnBlock(all, i, d) == blocks[i])
  }

  /** b holds the biases of layer i at positions i * rows up to (i + 1) * rows. */
  predicate BiasesHold(b: seq<real>, layers: seq<PlanarFlow>, rows: nat)
    requires forall i :: 0 <= i < |layers| ==> |layers[i].b| == rows
  {
    && |b| == rows * |layers|
    && forall i :: 0 <= i < |layers| ==> i * rows + rows <= |b| && b[i * rows..i * rows + rows] == layers[i].b
  }

  /** all holds the parameters of the layers: column block i of w and u is
      layer i's w and u, and b holds layer i's biases from i * rows on. */
  predicate RecoversLayers(all: Params, layers: seq<PlanarFlow>, rows: nat, d: nat)
    requires LayersOf(layers, rows, d)
  {
    && ColumnsHold(all.w, LayerWs(layers), rows, d)
    && ColumnsHold(all.u, LayerUs(layers), rows, d)
    && BiasesHold(all.b, layers, rows)
  }

  /** Concatenating the layers' parameters loses nothing: every layer's
      parameters are recovered from the concatenation. */
  lemma ConcatParamsRecovers(layers: seq<PlanarFlow>, rows: nat, d: nat)
    requires LayersOf(layers, rows, d)
    ensures RecoversLayers(ConcatParams(layers, rows), layers, rows, d)
  {
    ConcatColumnsRecover(LayerWs(layers), rows, d);
    ConcatColumnsRecover(LayerUs(layers), rows, d);
    ConcatBiasesRecover(layers, rows, d);
  }

  /** Column block i of the column concatenation of blocks of width d is
      block i, for every i. */
  lemma ConcatColumnsRecover(blocks: seq<seq<Vec>>, rows: nat, d: nat)
    requires forall i :: 0 <= i < |blocks| ==> |blocks[i]| == rows
    requires forall i, r :: 0 <= i < |blocks| && 0 <= r < rows ==> |blocks[i][r]| == d
    ensures ColumnsHold(ConcatColumns(blocks, rows), blocks, rows, d)
  {
    ConcatColumnsWidth(blocks, rows, d);
    forall i | 0 <= i < |blocks|
      ensures forall g :: 0 <= g < rows ==> i * d + d <= |ConcatColumns(blocks, rows)[g]|
      ensures ColumnBlock(ConcatColumns(blocks, rows), i, d) == blocks[i]
    {
      ColumnBlockOfConcat(blocks, rows, d, i);
    }
  }

  /** Slot i of the bias concatenation, i * rows up to (i + 1) * rows, is
      layer i's bias vector. */
  lemma ConcatBiasesRecover(layers: seq<PlanarFlow>, rows: nat, d: nat)
    requires LayersOf(layers, rows, d)
    ensures BiasesHold(ConcatBiases(layers), layers, rows)
  {
    var bs := seq(|layers|, i requires 0 <= i < |layers| => layers[i].b);
    assert ConcatBiases(layers) == Flatten(bs);
    FlattenLength(bs, rows);
    forall i | 0 <= i < |layers|
      ensures i * rows + rows <= |Flatten(bs)| && Flatten(bs)[i * rows..i * rows + rows] == layers[i].b
    {
      FlattenSlice(bs, rows, i);
    }
  }
}
