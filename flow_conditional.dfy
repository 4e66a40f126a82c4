/** FlowConditionalVariable: a flow X | Y whose layer parameters are the
    outputs of three networks applied to the covariate y, one row per row of
    y, cut into contiguous per-layer column blocks. */
module FlowConditional {
  import opened Common
  import opened PlanarFlows
  import opened FlowRandomVariables

  /** Column i of every row: all_b[:, i] with its singleton axis squeezed. */
  function BiasColumn(allB: seq<Vec>, i: nat): (b: seq<real>)
    requires forall r :: 0 <= r < |allB| ==> i < |allB[r]|
    ensures |b| == |allB|
  {
    seq(|allB|, r requires 0 <= r < |allB| => allB[r][i])
  }

  /** The network outputs for w, u (dim_x * flow_layers columns) and b
      (flow_layers columns), one row per covariate row. */
  predicate OutputShapes(allW: seq<Vec>, allU: seq<Vec>, allB: seq<Vec>, dimX: nat, layers: nat) {
    && |allW| == |allU| == |allB|
    && forall r :: 0 <= r < |allW| ==>
         |allW[r]| == |allU[r]| == dimX * layers && |allB[r]| == layers
  }

  /** The parameters of layer i: columns [i * dim_x, (i + 1) * dim_x) of the
      w and u outputs and column i of the b output. */
  function LayerParams(allW: seq<Vec>, allU: seq<Vec>, allB: seq<Vec>, dimX: nat, layers: nat, i: nat): (p: Params)
    requires OutputShapes(allW, allU, allB, dimX, layers) && i < layers
    ensures |p.w| == |p.b| == |p.u| == |allW|
    ensures forall r :: 0 <= r < |allW| ==> |p.w[r]| == |p.u[r]| == dimX
  {
    BlockBounds(i, layers, dimX);
    Params(ColumnBlock(allW, i, dimX), BiasColumn(allB, i), ColumnBlock(allU, i, dimX))
  }

  /** No layer gets a zero w row (the reversibility correction divides by
      its squared norm). */
  predicate NonDegenerate(allW: seq<Vec>, allU: seq<Vec>, allB: seq<Vec>, dimX: nat, layers: nat)
    requires OutputShapes(allW, allU, allB, dimX, layers)
  {
    forall i :: 0 <= i < layers ==> LayerParams(allW, allU, allB, dimX, layers, i).Admissible()
  }

  /** The n column blocks of width d of a table whose rows have width n * d. */
  function LayerBlocks(all: seq<Vec>, d: nat, n: nat): (blocks: seq<seq<Vec>>)
    requires forall r :: 0 <= r < |all| ==> |all[r]| == d * n
    ensures |blocks| == n
    ensures forall i :: 0 <= i < n ==> |blocks[i]| == |all|
  {
    assert forall i :: 0 <= i < n ==> i * d + d <= d * n by {
      forall i | 0 <= i < n ensures i * d + d <= d * n {
        BlockBounds(i, n, d);
      }
    }
    seq(n, i requires 0 <= i < n => ColumnBlock(all, i, d))
  }

  /** Every column of a row of width n * d lies in exactly one of the n
      layer blocks: concatenating the blocks in layer order gives back the
      whole output, each column once and in place. */
  lemma LayerBlocksCoverColumns(all: seq<Vec>, d: nat, n: nat)
    requires forall r :: 0 <= r < |all| ==> |all[r]| == d * n
    ensures ConcatColumns(LayerBlocks(all, d, n), |all|) == all
  {
    var blocks := LayerBlocks(all, d, n);
    var cat := ConcatColumns(blocks, |all|);
    forall r | 0 <= r < |all| ensures cat[r] == all[r] {
      var row := seq(n, i requires 0 <= i < n => blocks[i][r]);
      assert row == Blocks(all[r], n, d);
      FlattenOfBlocks(all[r], n, d);
    }
  }

  class FlowConditionalVariable {
    const y: seq<Vec>
    const dimX: nat
    const flowLayers: nat
    const nPoints: nat
    const baseDist: Option<BaseDist>
    /** Hidden widths of the three parameter networks (used only by them). */
    const hiddenUnits: seq<nat>
    /** The network outputs: all_w, all_u, all_b. */
    const w: seq<Vec>
    const u: seq<Vec>
    const b: seq<Vec>
    const variable: FlowRandomVariable

    /** The inner random variable holds one flow per layer, built from that
        layer's slices, with one parameter row per covariate row. Its layer
        count keeps the default of one, since the count of the supplied flows
        is stored under a misspelt name. */
    ghost predicate Valid() {
      && OutputShapes(w, u, b, dimX, flowLayers)
      && NonDegenerate(w, u, b, dimX, flowLayers)
      && |w| == nPoints
      && variable.Valid()
      && variable.numLayers == 1
      && variable.dim == dimX
      && |variable.flows| == flowLayers
      && (forall i :: 0 <= i < flowLayers ==>
            variable.flows[i] == FromParams(variable.nm, LayerParams(w, u, b, dimX, flowLayers, i)))
    }

    /** allW, allU, allB are the three networks' outputs on y (the networks
        are not part of this model). */
    constructor (nm: Numerics, dimX: nat, y: seq<Vec>, flowLayers: nat, hiddenUnits: seq<nat>,
                 baseDist: Option<BaseDist>, allW: seq<Vec>, allU: seq<Vec>, allB: seq<Vec>)
      requires Sound(nm)
      requires OutputShapes(allW, allU, allB, dimX, flowLayers) && |allW| == |y|
      requires NonDegenerate(allW, allU, allB, dimX, flowLayers)
      ensures Valid() && fresh(variable)
      ensures this.y == y && this.dimX == dimX && this.flowLayers == flowLayers && nPoints == |y|
      ensures w == allW && u == allU && b == allB
      ensures variable.nm == nm && variable.numLayers == 1
      ensures variable.baseDist == if baseDist.None? then StandardNormal(nm) else baseDist.value
    {
      var flows := SetUpFlows(nm, allW, allU, allB, dimX, flowLayers);
      this.y := y;
      this.dimX := dimX;
      this.flowLayers := flowLayers;
      this.nPoints := |y|;
      this.baseDist := baseDist;
      this.hiddenUnits := hiddenUnits;
      this.w, this.u, this.b := allW, allU, allB;
      this.variable := new FlowRandomVariable(nm, dimX, 1, Some(flows), baseDist, []);
    }

    /** set_up_flows: layer i is the flow whose w and u are columns
        [i * dim_x, (i + 1) * dim_x) of the outputs and whose b is column i,
        so it has one parameter row per covariate row. */
    static method SetUpFlows(nm: Numerics, allW: seq<Vec>, allU: seq<Vec>, allB: seq<Vec>, dimX: nat, layers: nat)
      returns (flows: seq<PlanarFlow>)
      requires OutputShapes(allW, allU, allB, dimX, layers)
      requires NonDegenerate(allW, allU, allB, dimX, layers)
      ensures |flows| == layers
      ensures forall i :: 0 <= i < layers ==> flows[i] == FromParams(nm, LayerParams(allW, allU, allB, dimX, layers, i))
      ensures forall i :: 0 <= i < layers ==>
                flows[i].Valid(nm) && flows[i].Shaped(dimX) && flows[i].NFlows() == |allW|
    {
      flows := [];
      for i := 0 to layers
        invariant |flows| == i
        invariant forall k :: 0 <= k < i ==> flows[k] == FromParams(nm, LayerParams(allW, allU, allB, dimX, layers, k))
        invariant forall k :: 0 <= k < i ==> flows[k].Valid(nm) && flows[k].Shaped(dimX) && flows[k].NFlows() == |allW|
      {
        var p := LayerParams(allW, allU, allB, dimX, layers, i);
        flows := flows + [FromParams(nm, p)];
      }
    }

    /** sample_log_prob: that of the inner random variable. */
    method SampleLogProb(n: nat, draws: Batch) returns (r: Result<Sample>)
      requires Valid()
      requires variable.baseDist.Distribution? && flowLayers > 0 ==>
                 variable.Accepts(draws) && forall g :: 0 <= g < |draws| ==> |draws[g]| == n
      requires variable.baseDist.Precomputed? ==>
                 variable.Accepts(variable.baseDist.samples)
                 && SameLayout(variable.baseDist.logProb, variable.baseDist.samples)
      ensures r.Err? <==> variable.baseDist.Distribution? && flowLayers == 0
      ensures r.Ok? ==>
                && variable.Accepts(variable.Base(draws).samples)
                && SameLayout(variable.Base(draws).logProb, variable.Base(draws).samples)
                && IsStackResult(variable.nm, variable.flows, variable.Base(draws).samples,
                                 variable.Base(draws).logProb, dimX, r.value.samples, r.value.logProb)
    {
      r := variable.SampleLogProb(n, draws);
    }
  }

  /** As written, get_all_flow_params on the inner variable reads only its
      default single layer: with two or more layers the w it returns is
      narrower than the network output the layers were cut from. */
  lemma AllFlowParamsAsWrittenDropsLayers(v: FlowConditionalVariable)
    requires v.Valid() && v.flowLayers >= 2 && v.dimX > 0 && v.nPoints > 0
    ensures v.variable.GetAllFlowParams().Ok?
    ensures |v.variable.GetAllFlowParams().value.w| == v.nPoints
    ensures |v.variable.GetAllFlowParams().value.w[0]| == v.dimX < |v.w[0]|
  {
    var all := v.variable.GetAllFlowParams().value;
    assert v.variable.flows[..1] == [v.variable.flows[0]];
    MulMono(2, v.flowLayers, v.dimX);
  }

  /** With the layer count it evidently intends, get_all_flow_params gives
      back exactly the w and u network outputs, and the b output
      column-major: layer i's bias for covariate row r sits at
      i * nPoints + r. */
  lemma AllFlowParamsRecoversOutputs(v: FlowConditionalVariable)
    requires v.Valid() && v.flowLayers > 0
    ensures v.variable.AllFlowParams().Ok?
    ensures v.variable.AllFlowParams().value.w == v.w
    ensures v.variable.AllFlowParams().value.u == v.u
    ensures ColumnMajor(v.variable.AllFlowParams().value.b, v.b, v.flowLayers)
  {
    var flows := v.variable.flows;
    var n := v.flowLayers;
    LayerFlowsAreBlocks(v.variable.nm, flows, v.w, v.u, v.b, v.dimX, n);
    assert LayersOf(flows, |v.w|, v.dimX);
    assert v.variable.AllFlowParams().value == ConcatParams(flows, |v.w|);
    ConcatOfLayerParams(flows, v.w, v.u, v.b, v.dimX, n);
  }

  /** The flows SetUpFlows builds carry exactly the layer blocks of the
      outputs as their w and u, and column i of the b output as their b. */
  lemma LayerFlowsAreBlocks(nm: Numerics, flows: seq<PlanarFlow>, allW: seq<Vec>, allU: seq<Vec>, allB: seq<Vec>,
                            dimX: nat, n: nat)
    requires OutputShapes(allW, allU, allB, dimX, n) && NonDegenerate(allW, allU, allB, dimX, n)
    requires |flows| == n
    requires forall i :: 0 <= i < n ==> flows[i] == FromParams(nm, LayerParams(allW, allU, allB, dimX, n, i))
    ensures forall i :: 0 <= i < n ==>
              && flows[i].w == LayerBlocks(allW, dimX, n)[i]
              && flows[i].u == LayerBlocks(allU, dimX, n)[i]
              && flows[i].b == BiasColumn(allB, i)
  {
    forall i | 0 <= i < n
      ensures flows[i].w == LayerBlocks(allW, dimX, n)[i]
      ensures flows[i].u == LayerBlocks(allU, dimX, n)[i]
      ensures flows[i].b == BiasColumn(allB, i)
    {
      var p := LayerParams(allW, allU, allB, dimX, n, i);
      assert flows[i] == FromParams(nm, p);
    }
  }

  /** flat holds table column by column: entry (r, i) of the table sits at
      i * rows + r. */
  predicate ColumnMajor(flat: seq<real>, table: seq<Vec>, n: nat) {
    && |flat| == |table| * n
    && forall i, r :: 0 <= i < n && 0 <= r < |table| ==>
         i * |table| + r < |flat| && i < |table[r]| && flat[i * |table| + r] == table[r][i]
  }

  /** Concatenating layers whose parameters are the column blocks of the
      outputs gives the w and u outputs back, and the b output column-major. */
  lemma ConcatOfLayerParams(flows: seq<PlanarFlow>, allW: seq<Vec>, allU: seq<Vec>, allB: seq<Vec>, dimX: nat, n: nat)
    requires OutputShapes(allW, allU, allB, dimX, n) && |flows| == n
    requires LayersOf(flows, |allW|, dimX)
    requires forall i :: 0 <= i < n ==>
               && flows[i].w == LayerBlocks(allW, dimX, n)[i]
               && flows[i].u == LayerBlocks(allU, dimX, n)[i]
               && flows[i].b == BiasColumn(allB, i)
    ensures ConcatParams(flows, |allW|).w == allW && ConcatParams(flows, |allW|).u == allU
    ensures ColumnMajor(ConcatParams(flows, |allW|).b, allB, n)
  {
    var rows := |allW|;
    var ws := LayerWs(flows);
    var us := LayerUs(flows);
    assert ConcatParams(flows, rows).w == ConcatColumns(ws, rows);
    assert ConcatParams(flows, rows).u == ConcatColumns(us, rows);
    assert ws == LayerBlocks(allW, dimX, n);
    assert us == LayerBlocks(allU, dimX, n);
    LayerBlocksCoverColumns(allW, dimX, n);
    LayerBlocksCoverColumns(allU, dimX, n);
    forall i, r | 0 <= i < n && 0 <= r < rows ensures flows[i].b[r] == allB[r][i] {
      assert flows[i].b == BiasColumn(allB, i);
    }
    ConcatOfBiasColumns(flows, allB, rows, dimX, n);
  }

  lemma ConcatOfBiasColumns(flows: seq<PlanarFlow>, allB: seq<Vec>, rows: nat, dimX: nat, n: nat)
    requires |allB| == rows && |flows| == n && LayersOf(flows, rows, dimX)
    requires forall r :: 0 <= r < rows ==> |allB[r]| == n
    requires forall i, r :: 0 <= i < n && 0 <= r < rows ==> flows[i].b[r] == allB[r][i]
    ensures ColumnMajor(ConcatParams(flows, rows).b, allB, n)
  {
    ConcatBiasesRecover(flows, rows, dimX);
    BiasesAreColumnMajor(ConcatParams(flows, rows).b, flows, allB, rows, n);
  }

  /** Biases laid out layer after layer are the bias table column-major
      when layer i's bias of row r is entry (r, i) of the table. */
  lemma BiasesAreColumnMajor(b: seq<real>, flows: seq<PlanarFlow>, allB: seq<Vec>, rows: nat, n: nat)
    requires |allB| == rows && |flows| == n
    requires forall i :: 0 <= i < n ==> |flows[i].b| == rows
    requires forall r :: 0 <= r < rows ==> |allB[r]| == n
    requires forall i, r :: 0 <= i < n && 0 <= r < rows ==> flows[i].b[r] == allB[r][i]
    requires BiasesHold(b, flows, rows)
    ensures ColumnMajor(b, allB, n)
  {
    forall i, r | 0 <= i < n && 0 <= r < |allB|
      ensures i * |allB| + r < |b| && i < |allB[r]| && b[i * |allB| + r] == allB[r][i]
    {
      BiasEntry(b, flows, rows, i, r);
    }
    assert |b| == |allB| * n;
  }

  /** Entry r of layer i's slot in b is layer i's bias of row r. */
  lemma BiasEntry(b: seq<real>, flows: seq<PlanarFlow>, rows: nat, i: nat, r: nat)
    requires forall k :: 0 <= k < |flows| ==> |flows[k].b| == rows
    requires BiasesHold(b, flows, rows)
    requires i < |flows| && r < rows
    ensures i * rows + r < |b| && b[i * rows + r] == flows[i].b[r]
  {
    var lo := i * rows;
    assert lo + rows <= |b| && b[lo..lo + rows] == flows[i].b;
    assert b[lo + r] == b[lo..lo + rows][r];
  }
}
