/** DynaFlowConditionalRandomVariable: the time-chained flow of DynaFlows
    whose layer parameters are the outputs of three networks run on the
    observed paths y, one network row per (example, adjacent time pair).
    Every example gets its own row of parameters in every layer, so every
    layer holds one parallel flow per example. */
module DynaFlowConditional {
  import opened Common
  import opened PlanarFlows
  import opened FlowRandomVariables
  import opened DynaFlows

  // ---------------------------------------------------------------------
  // Unfolding the observed paths into adjacent time pairs

  /** Every observed path has time slots of width obsDim. */
  predicate Paths(y: seq<Vec>, time: nat, obsDim: nat) {
    forall e :: 0 <= e < |y| ==> |y[e]| == time * obsDim
  }

  /** obs_dim: the width of a row of y divided by the number of time slots
      (rounded down; 0 when there is no row to measure). */
  function ObsDim(y: seq<Vec>, time: nat): nat
    requires time >= 1
  {
    if |y| == 0 then 0 else |y[0]| / time
  }

  /** Time slot t of a path. */
  function Slot(path: Vec, time: nat, obsDim: nat, t: nat): (s: Vec)
    requires |path| == time * obsDim && t < time
    ensures |s| == obsDim
  {
    BlockBounds(t, time, obsDim);
    path[t * obsDim..t * obsDim + obsDim]
  }

  /** Slots t and t + 1 of a path side by side. */
  function TimePair(path: Vec, time: nat, obsDim: nat, t: nat): (p: Vec)
    requires |path| == time * obsDim && t + 1 < time
    ensures |p| == 2 * obsDim
  {
    Slot(path, time, obsDim, t) + Slot(path, time, obsDim, t + 1)
  }

  /** The time - 1 adjacent pairs of every example, example by example. */
  function PairRows(y: seq<Vec>, time: nat, obsDim: nat): (rows: seq<seq<Vec>>)
    requires Paths(y, time, obsDim) && time >= 1
    ensures |rows| == |y| && Uniform(rows, time - 1)
  {
    seq(|y|, e requires 0 <= e < |y| =>
      seq(time - 1, t requires 0 <= t < time - 1 => TimePair(y[e], time, obsDim, t)))
  }

  /** unfold_time_pairs: the time - 1 adjacent pairs of every example, the
      examples in order and within an example the pairs in time order (the
      row-major reshape of [n_example, time - 1, 2 * obs_dim]). */
  function UnfoldTimePairs(y: seq<Vec>, time: nat, obsDim: nat): (x: seq<Vec>)
    requires Paths(y, time, obsDim) && time >= 1
    ensures |x| == |y| * (time - 1)
    ensures forall k :: 0 <= k < |x| ==> |x[k]| == 2 * obsDim
  {
    var rows := PairRows(y, time, obsDim);
    FlattenLength(rows, time - 1);
    assert forall k :: 0 <= k < |Flatten(rows)| ==> |Flatten(rows)[k]| == 2 * obsDim by {
      forall k | 0 <= k < |Flatten(rows)| ensures |Flatten(rows)[k]| == 2 * obsDim {
        FlattenElement(rows, k);
      }
    }
    Flatten(rows)
  }

  /** Row e * (time - 1) + t of the unfolding is pair t of example e. */
  lemma UnfoldTimePairsAt(y: seq<Vec>, time: nat, obsDim: nat, e: nat, t: nat)
    requires Paths(y, time, obsDim) && time >= 1 && e < |y| && t < time - 1
    ensures e * (time - 1) + t < |y| * (time - 1)
    ensures UnfoldTimePairs(y, time, obsDim)[e * (time - 1) + t] == TimePair(y[e], time, obsDim, t)
  {
    UnfoldIsFlatten(y, time, obsDim);
    PairRowsAt(y, time, obsDim, e, t);
    FlattenAt(PairRows(y, time, obsDim), time - 1, e, t);
  }

  /** The unfolding is the concatenation of the examples' pair rows. */
  lemma UnfoldIsFlatten(y: seq<Vec>, time: nat, obsDim: nat)
    requires Paths(y, time, obsDim) && time >= 1
    ensures UnfoldTimePairs(y, time, obsDim) == Flatten(PairRows(y, time, obsDim))
  {
  }

  /** Pair t of example e's row is its slots t and t + 1. */
  lemma PairRowsAt(y: seq<Vec>, time: nat, obsDim: nat, e: nat, t: nat)
    requires Paths(y, time, obsDim) && time >= 1 && e < |y| && t < time - 1
    ensures PairRows(y, time, obsDim)[e][t] == TimePair(y[e], time, obsDim, t)
  {
  }

  /** Consecutive pairs of an example overlap: the second half of pair t is
      the first half of pair t + 1, both being time slot t + 1. */
  lemma UnfoldedPairsOverlap(y: seq<Vec>, time: nat, obsDim: nat, e: nat, t: nat)
    requires Paths(y, time, obsDim) && time >= 1 && e < |y| && t + 1 < time - 1
    ensures e * (time - 1) + t + 1 < |UnfoldTimePairs(y, time, obsDim)|
    ensures UnfoldTimePairs(y, time, obsDim)[e * (time - 1) + t][obsDim..]
         == UnfoldTimePairs(y, time, obsDim)[e * (time - 1) + t + 1][..obsDim]
         == Slot(y[e], time, obsDim, t + 1)
  {
    UnfoldTimePairsAt(y, time, obsDim, e, t);
    UnfoldTimePairsAt(y, time, obsDim, e, t + 1);
  }

  /** The halves of example e's unfolded pairs that stand for its time
      slots: the first half of pair t for every slot but the last, the second
      half of the last pair for the last. */
  function Halves(x: seq<Vec>, time: nat, obsDim: nat, e: nat): (hs: seq<Vec>)
    requires time >= 2 && e * (time - 1) + time - 2 < |x|
    requires forall k :: 0 <= k < |x| ==> |x[k]| == 2 * obsDim
    ensures |hs| == time
  {
    seq(time, t requires 0 <= t < time =>
      if t < time - 1 then x[e * (time - 1) + t][..obsDim] else x[e * (time - 1) + time - 2][obsDim..])
  }

  /** The unfolding loses nothing: with at least two slots, the halves of an
      example's pairs that stand for its slots, concatenated, give back its
      path. */
  lemma UnfoldRecoversPath(y: seq<Vec>, time: nat, obsDim: nat, e: nat)
    requires Paths(y, time, obsDim) && time >= 2 && e < |y|
    ensures e * (time - 1) + time - 2 < |UnfoldTimePairs(y, time, obsDim)|
    ensures Flatten(Halves(UnfoldTimePairs(y, time, obsDim), time, obsDim, e)) == y[e]
  {
    HalvesAreSlots(y, time, obsDim, e);
    FlattenOfBlocks(y[e], time, obsDim);
  }

  /** Halves of the unfolding are the time slots of the path. */
  lemma HalvesAreSlots(y: seq<Vec>, time: nat, obsDim: nat, e: nat)
    requires Paths(y, time, obsDim) && time >= 2 && e < |y|
    ensures e * (time - 1) + time - 2 < |UnfoldTimePairs(y, time, obsDim)|
    ensures Halves(UnfoldTimePairs(y, time, obsDim), time, obsDim, e) == Blocks(y[e], time, obsDim)
  {
    var x := UnfoldTimePairs(y, time, obsDim);
    UnfoldTimePairsAt(y, time, obsDim, e, time - 2);
    var halves := Halves(x, time, obsDim, e);
    var slots := Blocks(y[e], time, obsDim);
    forall t | 0 <= t < time ensures halves[t] == slots[t] {
      HalfIsSlot(y, time, obsDim, e, t);
    }
  }

  /** Half t of example e is its time slot t. */
  lemma HalfIsSlot(y: seq<Vec>, time: nat, obsDim: nat, e: nat, t: nat)
    requires Paths(y, time, obsDim) && time >= 2 && e < |y| && t < time
    ensures e * (time - 1) + time - 2 < |UnfoldTimePairs(y, time, obsDim)|
    ensures Halves(UnfoldTimePairs(y, time, obsDim), time, obsDim, e)[t] == Blocks(y[e], time, obsDim)[t]
  {
    UnfoldTimePairsAt(y, time, obsDim, e, time - 2);
    BlockBounds(t, time, obsDim);
    assert Blocks(y[e], time, obsDim)[t] == Slot(y[e], time, obsDim, t);
    if t < time - 1 {
      UnfoldTimePairsAt(y, time, obsDim, e, t);
    }
  }

  // ---------------------------------------------------------------------
  // Cutting the network outputs into per-flow parameters

  /** A network output: one row per unfolded pair, numLayers blocks of
      width d per row. */
  predicate ParamGroup(pg: seq<Vec>, nExample: nat, time: nat, numLayers: nat, d: nat) {
    && time >= 1
    && |pg| == nExample * (time - 1)
    && forall k :: 0 <= k < |pg| ==> |pg[k]| == d * numLayers
  }

  /** The parameters of example e in layer `layer` of step t: block `layer`
      of the output row of example e's pair t. */
  function ParamRow(pg: seq<Vec>, nExample: nat, time: nat, numLayers: nat, d: nat, e: nat, t: nat, layer: nat): (v: Vec)
    requires ParamGroup(pg, nExample, time, numLayers, d)
    requires e < nExample && t < time - 1 && layer < numLayers
    ensures |v| == d
  {
    BlockBounds(e, nExample, time - 1);
    BlockBounds(layer, numLayers, d);
    pg[e * (time - 1) + t][layer * d..layer * d + d]
  }

  /** get_flow_parameters: the parameters of layer `layer` of step t, one
      row per example (the squeeze, and the expand_dims that restores a
      single example's row, are not modelled: the result always has
      n_example rows). */
  function GetFlowParameters(pg: seq<Vec>, nExample: nat, time: nat, numLayers: nat, t: nat, layer: nat, d: nat)
    : (p: seq<Vec>)
    requires ParamGroup(pg, nExample, time, numLayers, d) && t < time - 1 && layer < numLayers
    ensures |p| == nExample && forall e :: 0 <= e < nExample ==> |p[e]| == d
  {
    seq(nExample, e requires 0 <= e < nExample => ParamRow(pg, nExample, time, numLayers, d, e, t, layer))
  }

  /** Entry j of example e's parameters in (t, layer) is entry (k, c) of the
      network output. */
  predicate ReadsEntry(time: nat, d: nat, e: nat, t: nat, layer: nat, j: nat, k: nat, c: nat) {
    time >= 1 && e * (time - 1) + t == k && layer * d + j == c
  }

  /** Every entry of a network output is used by exactly one flow parameter:
      entry c of row k is entry c % d of example k / (time - 1)'s parameters
      at step k % (time - 1), layer c / d, and no other (example, step,
      layer, entry) reads it. */
  lemma EachOutputUsedOnce(pg: seq<Vec>, nExample: nat, time: nat, numLayers: nat, d: nat, k: nat, c: nat)
    requires ParamGroup(pg, nExample, time, numLayers, d) && k < |pg| && c < d * numLayers
    ensures time >= 2 && d > 0
    ensures var e, t, layer, j := k / (time - 1), k % (time - 1), c / d, c % d;
            && e < nExample && t < time - 1 && layer < numLayers && j < d
            && ReadsEntry(time, d, e, t, layer, j, k, c)
            && GetFlowParameters(pg, nExample, time, numLayers, t, layer, d)[e][j] == pg[k][c]
    ensures forall e: nat, t: nat, layer: nat, j: nat :: t < time - 1 && j < d && ReadsEntry(time, d, e, t, layer, j, k, c) ==>
              e == k / (time - 1) && t == k % (time - 1) && layer == c / d && j == c % d
  {
    PositiveFactors(nExample, time - 1, k);
    PositiveFactors(d, numLayers, c);
    OutputEntryLocated(pg, nExample, time, numLayers, d, k, c, k / (time - 1), k % (time - 1), c / d, c % d);
    ReadsEntryUnique(time, d, k, c);
  }

  /** Entry c of output row k, split by div and mod into its example, step,
      layer and entry, is read by exactly that parameter. */
  lemma OutputEntryLocated(pg: seq<Vec>, nExample: nat, time: nat, numLayers: nat, d: nat, k: nat, c: nat,
                           e: nat, t: nat, layer: nat, j: nat)
    requires ParamGroup(pg, nExample, time, numLayers, d) && k < |pg| && c < d * numLayers
    requires time >= 2 && d > 0
    requires e == k / (time - 1) && t == k % (time - 1) && layer == c / d && j == c % d
    ensures e < nExample && t < time - 1 && layer < numLayers && j < d
    ensures ReadsEntry(time, d, e, t, layer, j, k, c)
    ensures GetFlowParameters(pg, nExample, time, numLayers, t, layer, d)[e][j] == pg[k][c]
  {
    DivModUnique(k, e, t, time - 1);
    DivModUnique(c, layer, j, d);
    if e >= nExample {
      MulMono(nExample, e, time - 1);
    }
    if layer >= numLayers {
      MulMono(numLayers, layer, d);
    }
    ParameterEntry(pg, nExample, time, numLayers, d, e, t, layer, j);
  }

  /** Entry j of example e's parameters in (t, layer) is entry
      layer * d + j of output row e * (time - 1) + t. */
  lemma ParameterEntry(pg: seq<Vec>, nExample: nat, time: nat, numLayers: nat, d: nat, e: nat, t: nat, layer: nat, j: nat)
    requires ParamGroup(pg, nExample, time, numLayers, d)
    requires e < nExample && t < time - 1 && layer < numLayers && j < d
    ensures e * (time - 1) + t < |pg| && layer * d + j < |pg[e * (time - 1) + t]|
    ensures GetFlowParameters(pg, nExample, time, numLayers, t, layer, d)[e][j] == pg[e * (time - 1) + t][layer * d + j]
  {
    BlockBounds(e, nExample, time - 1);
    BlockBounds(layer, numLayers, d);
    var row := pg[e * (time - 1) + t];
    assert GetFlowParameters(pg, nExample, time, numLayers, t, layer, d)[e] == row[layer * d..layer * d + d];
  }

  /** No two (example, step, layer, entry) read the same output entry. */
  lemma ReadsEntryUnique(time: nat, d: nat, k: nat, c: nat)
    requires time >= 2 && d > 0
    ensures forall e: nat, t: nat, layer: nat, j: nat :: t < time - 1 && j < d && ReadsEntry(time, d, e, t, layer, j, k, c) ==>
              e == k / (time - 1) && t == k % (time - 1) && layer == c / d && j == c % d
  {
    forall e: nat, t: nat, layer: nat, j: nat | t < time - 1 && j < d && ReadsEntry(time, d, e, t, layer, j, k, c)
      ensures e == k / (time - 1) && t == k % (time - 1) && layer == c / d && j == c % d
    {
      DivModUnique(k, e, t, time - 1);
      DivModUnique(c, layer, j, d);
    }
  }

  /** Dense networks act row by row: when a network output is the image of
      the unfolded pairs under a row-wise map, the parameters of example e at
      step t are computed from that example's time slots t and t + 1 alone. */
  lemma ParametersFollowTheirPair(y: seq<Vec>, time: nat, obsDim: nat, net: Vec -> Vec, pg: seq<Vec>,
                                  numLayers: nat, d: nat, e: nat, t: nat, layer: nat)
    requires Paths(y, time, obsDim) && time >= 1
    requires |pg| == |UnfoldTimePairs(y, time, obsDim)|
    requires forall k :: 0 <= k < |pg| ==> pg[k] == net(UnfoldTimePairs(y, time, obsDim)[k])
    requires ParamGroup(pg, |y|, time, numLayers, d) && e < |y| && t < time - 1 && layer < numLayers
    ensures layer * d + d <= |net(TimePair(y[e], time, obsDim, t))|
    ensures GetFlowParameters(pg, |y|, time, numLayers, t, layer, d)[e]
         == net(TimePair(y[e], time, obsDim, t))[layer * d..layer * d + d]
  {
    UnfoldTimePairsAt(y, time, obsDim, e, t);
    BlockBounds(layer, numLayers, d);
  }

  // ---------------------------------------------------------------------
  // The flows

  /** Output c of one row each (b's single column, squeezed). */
  function FirstColumn(p: seq<Vec>): (b: seq<real>)
    requires forall e :: 0 <= e < |p| ==> |p[e]| >= 1
    ensures |b| == |p|
  {
    seq(|p|, e requires 0 <= e < |p| => p[e][0])
  }

  /** The three network outputs: u and w with 2 * dim columns per layer, b
      with one. */
  predicate OutputShapes(u: seq<Vec>, w: seq<Vec>, b: seq<Vec>, nExample: nat, time: nat, numLayers: nat, dim: nat) {
    && ParamGroup(u, nExample, time, numLayers, 2 * dim)
    && ParamGroup(w, nExample, time, numLayers, 2 * dim)
    && ParamGroup(b, nExample, time, numLayers, 1)
  }

  /** The parameters of layer i of step t: one row per example. */
  function StepLayerParams(u: seq<Vec>, w: seq<Vec>, b: seq<Vec>, nExample: nat, time: nat, numLayers: nat, dim: nat,
                           t: nat, i: nat): (p: Params)
    requires OutputShapes(u, w, b, nExample, time, numLayers, dim) && t < time - 1 && i < numLayers
    ensures |p.w| == |p.b| == |p.u| == nExample
    ensures forall e :: 0 <= e < nExample ==> |p.w[e]| == |p.u[e]| == 2 * dim
  {
    Params(GetFlowParameters(w, nExample, time, numLayers, t, i, 2 * dim),
           FirstColumn(GetFlowParameters(b, nExample, time, numLayers, t, i, 1)),
           GetFlowParameters(u, nExample, time, numLayers, t, i, 2 * dim))
  }

  /** No flow gets a zero w row (the reversibility correction divides by
      its squared norm). */
  predicate NonDegenerate(u: seq<Vec>, w: seq<Vec>, b: seq<Vec>, nExample: nat, time: nat, numLayers: nat, dim: nat)
    requires OutputShapes(u, w, b, nExample, time, numLayers, dim)
  {
    forall t, i :: 0 <= t < time - 1 && 0 <= i < numLayers ==>
      StepLayerParams(u, w, b, nExample, time, numLayers, dim, t, i).Admissible()
  }

  /** flows[t][i] is the flow built from the parameters of layer i of step
      t, for every step built so far; every such flow is valid, of width
      2 * dim and with one parallel flow per example. */
  ghost predicate StepsBuilt(nm: Numerics, u: seq<Vec>, w: seq<Vec>, b: seq<Vec>,
                             nExample: nat, time: nat, numLayers: nat, dim: nat, flows: seq<seq<PlanarFlow>>)
    requires OutputShapes(u, w, b, nExample, time, numLayers, dim) && |flows| <= time - 1
    requires NonDegenerate(u, w, b, nExample, time, numLayers, dim)
  {
    && (forall t :: 0 <= t < |flows| ==> |flows[t]| == numLayers)
    && (forall t, i :: 0 <= t < |flows| && 0 <= i < numLayers ==>
          flows[t][i] == FromParams(nm, StepLayerParams(u, w, b, nExample, time, numLayers, dim, t, i)))
    && (forall t, i :: 0 <= t < |flows| && 0 <= i < |flows[t]| ==>
          flows[t][i].Valid(nm) && flows[t][i].Shaped(2 * dim) && flows[t][i].NFlows() == nExample)
  }

  /** Appending the layers of the next step keeps StepsBuilt. */
  lemma StepsBuiltSnoc(nm: Numerics, u: seq<Vec>, w: seq<Vec>, b: seq<Vec>,
                       nExample: nat, time: nat, numLayers: nat, dim: nat,
                       flows: seq<seq<PlanarFlow>>, stack: seq<PlanarFlow>)
    requires OutputShapes(u, w, b, nExample, time, numLayers, dim) && |flows| < time - 1
    requires NonDegenerate(u, w, b, nExample, time, numLayers, dim)
    requires StepsBuilt(nm, u, w, b, nExample, time, numLayers, dim, flows)
    requires |stack| == numLayers
    requires forall i :: 0 <= i < numLayers ==>
               stack[i] == FromParams(nm, StepLayerParams(u, w, b, nExample, time, numLayers, dim, |flows|, i))
    requires forall i :: 0 <= i < numLayers ==>
               stack[i].Valid(nm) && stack[i].Shaped(2 * dim) && stack[i].NFlows() == nExample
    ensures StepsBuilt(nm, u, w, b, nExample, time, numLayers, dim, flows + [stack])
  {
    var flows' := flows + [stack];
    forall t | 0 <= t < |flows'| ensures flows'[t] == if t < |flows| then flows[t] else stack {
    }
  }

  class DynaFlowConditionalRandomVariable {
    const nm: Numerics
    const y: seq<Vec>
    const dim: nat
    const time: nat
    const numLayers: nat
    const fullDim: nat
    const baseDist: BaseDist
    const nExample: nat
    const obsDim: nat
    /** The outputs of the u, w and b networks on the unfolded pairs (the
        networks are not part of this model). */
    const uMlp: seq<Vec>
    const wMlp: seq<Vec>
    const bMlp: seq<Vec>
    const flows: seq<seq<PlanarFlow>>

    /** flows[t][i] is the flow built from the parameters of layer i of step
        t, one parallel flow per example, for each of the time - 1 steps. */
    ghost predicate Valid() {
      && Sound(nm)
      && time >= 1
      && fullDim == dim * time
      && nExample == |y|
      && obsDim == ObsDim(y, time)
      && Paths(y, time, obsDim)
      && OutputShapes(uMlp, wMlp, bMlp, nExample, time, numLayers, dim)
      && NonDegenerate(uMlp, wMlp, bMlp, nExample, time, numLayers, dim)
      && |flows| == time - 1
      && StepsBuilt(nm, uMlp, wMlp, bMlp, nExample, time, numLayers, dim, flows)
    }

    /** uMlp, wMlp, bMlp are the three networks' outputs on
        UnfoldTimePairs(y, time, ObsDim(y, time)). */
    constructor (nm: Numerics, y: seq<Vec>, dim: nat, time: nat, numLayers: nat, baseDist: Option<BaseDist>,
                 uMlp: seq<Vec>, wMlp: seq<Vec>, bMlp: seq<Vec>)
      requires Sound(nm) && time >= 1 && Paths(y, time, ObsDim(y, time))
      requires OutputShapes(uMlp, wMlp, bMlp, |y|, time, numLayers, dim)
      requires NonDegenerate(uMlp, wMlp, bMlp, |y|, time, numLayers, dim)
      ensures Valid()
      ensures this.nm == nm && this.y == y && this.dim == dim && this.time == time && this.numLayers == numLayers
      ensures this.uMlp == uMlp && this.wMlp == wMlp && this.bMlp == bMlp
      ensures this.baseDist == if baseDist.None? then StandardNormal(nm) else baseDist.value
    {
      var layers := SetupFlowLayers(nm, uMlp, wMlp, bMlp, |y|, time, numLayers, dim);
      this.nm := nm;
      this.y := y;
      this.dim := dim;
      this.time := time;
      this.numLayers := numLayers;
      this.fullDim := dim * time;
      this.baseDist := if baseDist.None? then StandardNormal(nm) else baseDist.value;
      this.nExample := |y|;
      this.obsDim := ObsDim(y, time);
      this.uMlp := uMlp;
      this.wMlp := wMlp;
      this.bMlp := bMlp;
      this.flows := layers;
    }

    /** setup_flow_layers: for each of the time - 1 steps and each layer, the
        flow built from that step's and layer's slice of the outputs. */
    static method SetupFlowLayers(nm: Numerics, u: seq<Vec>, w: seq<Vec>, b: seq<Vec>,
                                  nExample: nat, time: nat, numLayers: nat, dim: nat)
      returns (flows: seq<seq<PlanarFlow>>)
      requires OutputShapes(u, w, b, nExample, time, numLayers, dim)
      requires NonDegenerate(u, w, b, nExample, time, numLayers, dim)
      ensures |flows| == time - 1
      ensures StepsBuilt(nm, u, w, b, nExample, time, numLayers, dim, flows)
    {
      flows := [];
      for t := 0 to time - 1
        invariant |flows| == t
        invariant StepsBuilt(nm, u, w, b, nExample, time, numLayers, dim, flows)
      {
        var stack := SetupStep(nm, u, w, b, nExample, time, numLayers, dim, t);
        StepsBuiltSnoc(nm, u, w, b, nExample, time, numLayers, dim, flows, stack);
        flows := flows + [stack];
      }
    }

    /** The inner loop of setup_flow_layers: the layers of step t. */
    static method SetupStep(nm: Numerics, u: seq<Vec>, w: seq<Vec>, b: seq<Vec>,
                            nExample: nat, time: nat, numLayers: nat, dim: nat, t: nat)
      returns (stack: seq<PlanarFlow>)
      requires OutputShapes(u, w, b, nExample, time, numLayers, dim) && t < time - 1
      requires NonDegenerate(u, w, b, nExample, time, numLayers, dim)
      ensures |stack| == numLayers
      ensures forall i :: 0 <= i < numLayers ==>
                stack[i] == FromParams(nm, StepLayerParams(u, w, b, nExample, time, numLayers, dim, t, i))
      ensures forall i :: 0 <= i < numLayers ==>
                stack[i].Valid(nm) && stack[i].Shaped(2 * dim) && stack[i].NFlows() == nExample
    {
      stack := [];
      for i := 0 to numLayers
        invariant |stack| == i
        invariant forall k :: 0 <= k < i ==>
                    stack[k] == FromParams(nm, StepLayerParams(u, w, b, nExample, time, numLayers, dim, t, k))
        invariant forall k :: 0 <= k < i ==>
                    stack[k].Valid(nm) && stack[k].Shaped(2 * dim) && stack[k].NFlows() == nExample
      {
        var p := StepLayerParams(u, w, b, nExample, time, numLayers, dim, t, i);
        var f := FromParams(nm, p);
        assert f.Shaped(2 * dim);
        stack := stack + [f];
      }
    }

    /** sample_log_prob: a precomputed (samples, log_prob) pair has no
        `sample`. Otherwise n draws per example (group e runs through the
        flows' row e) go through the time chain, starting from their summed
        base log-density; the single-example branch of the source is this
        with one group. */
    method SampleLogProb(n: nat, draws: Batch) returns (r: Result<Sample>)
      requires Valid()
      requires |draws| == nExample && Conforms(draws, fullDim)
      requires forall e :: 0 <= e < |draws| ==> |draws[e]| == n
      ensures r.Err? <==> baseDist.Precomputed?
      ensures r.Err? ==> r.error == NotSampleable
      ensures r.Ok? ==> ChainFits(flows, draws, dim)
      ensures r.Ok? ==> IsChainResult(nm, flows, dim, draws, BaseLogProb(baseDist.coordLogPdf, draws),
                                      r.value.samples, r.value.logProb)
    {
      if baseDist.Precomputed? {
        return Err(NotSampleable);
      }
      assert dim * (|flows| + 1) == fullDim;
      var logProb := BaseLogProb(baseDist.coordLogPdf, draws);
      var samples, lq := RunChain(nm, flows, dim, draws, logProb);
      r := Ok(Sample(samples, lq));
    }
  }
}
