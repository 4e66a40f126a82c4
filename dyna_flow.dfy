/** DynaFlowRandomVariable: a latent path of `time` steps of width dim,
    stored as one vector of width dim * time, transformed by walking adjacent
    pairs of time steps. Step t joins the block carried so far with time
    slot t + 1, runs that step's layer stack on the pair, emits the first
    half and carries the second half; the last carried block closes the
    output. */
module DynaFlows {
  import opened Common
  import opened PlanarFlows
  import opened FlowRandomVariables

  // ---------------------------------------------------------------------
  // The chain, one sample at a time

  /** Every step's stack has rows of width 2 * dim and a row g. */
  predicate ChainReaches(stacks: seq<seq<PlanarFlow>>, g: nat, dim: nat) {
    forall t :: 0 <= t < |stacks| ==> ReachesRow(stacks[t], g, 2 * dim)
  }

  /** v is a path of |stacks| + 1 time slots of width dim, one stack per
      adjacent pair of slots. */
  predicate ChainInput(stacks: seq<seq<PlanarFlow>>, g: nat, dim: nat, v: Vec) {
    ChainReaches(stacks, g, dim) && |v| == dim * (|stacks| + 1)
  }

  /** pre_latent before step t: time slot 0 at the start, afterwards the
      second half of the previous step's transformed pair. */
  function Carried(nm: Numerics, stacks: seq<seq<PlanarFlow>>, g: nat, dim: nat, v: Vec, t: nat): (c: Vec)
    requires ChainInput(stacks, g, dim, v) && t <= |stacks|
    ensures |c| == dim
    decreases t, 0
  {
    if t == 0 then
      BlockBounds(0, |stacks| + 1, dim);
      v[..dim]
    else
      StepOut(nm, stacks, g, dim, v, t - 1)[dim..]
  }

  /** latent_pair entering step t: the carried block followed by time slot
      t + 1. */
  function PairIn(nm: Numerics, stacks: seq<seq<PlanarFlow>>, g: nat, dim: nat, v: Vec, t: nat): (p: Vec)
    requires ChainInput(stacks, g, dim, v) && t < |stacks|
    ensures |p| == 2 * dim
    decreases t, 1
  {
    BlockBounds(t + 1, |stacks| + 1, dim);
    Carried(nm, stacks, g, dim, v, t) + v[(t + 1) * dim..(t + 1) * dim + dim]
  }

  /** latent_pair after step t's stack. */
  function StepOut(nm: Numerics, stacks: seq<seq<PlanarFlow>>, g: nat, dim: nat, v: Vec, t: nat): (q: Vec)
    requires ChainInput(stacks, g, dim, v) && t < |stacks|
    ensures |q| == 2 * dim
    decreases t, 2
  {
    StackOut(nm, stacks[t], g, PairIn(nm, stacks, g, dim, v, t))
  }

  /** Output block t: the first half of step t's transformed pair, or the
      last carried block. */
  function Block(nm: Numerics, stacks: seq<seq<PlanarFlow>>, g: nat, dim: nat, v: Vec, t: nat): (b: Vec)
    requires ChainInput(stacks, g, dim, v) && t <= |stacks|
    ensures |b| == dim
  {
    if t < |stacks| then StepOut(nm, stacks, g, dim, v, t)[..dim] else Carried(nm, stacks, g, dim, v, t)
  }

  /** final_samples: the output blocks concatenated in time order. */
  function ChainOut(nm: Numerics, stacks: seq<seq<PlanarFlow>>, g: nat, dim: nat, v: Vec): Vec
    requires ChainInput(stacks, g, dim, v)
  {
    Flatten(seq(|stacks| + 1, t requires 0 <= t <= |stacks| => Block(nm, stacks, g, dim, v, t)))
  }

  /** What the first m steps add to the log-density: each step's layers'
      log-determinants, taken along that step's pair. */
  function ChainLdj(nm: Numerics, stacks: seq<seq<PlanarFlow>>, g: nat, dim: nat, v: Vec, m: nat): real
    requires ChainInput(stacks, g, dim, v) && m <= |stacks|
  {
    if m == 0 then 0.0
    else
      ChainLdj(nm, stacks, g, dim, v, m - 1)
      + LogDetSum(nm, stacks[m - 1], g, PairIn(nm, stacks, g, dim, v, m - 1), |stacks[m - 1]|)
  }

  // ---------------------------------------------------------------------
  // Properties of the chain

  /** The output has the input's width, one block of width dim per time
      slot: for t < |stacks| block t is the first half of step t's
      transformed pair, and the last block is the second half of the final
      step's pair (time slot 0 itself when there is no step). */
  lemma ChainOutBlocks(nm: Numerics, stacks: seq<seq<PlanarFlow>>, g: nat, dim: nat, v: Vec, t: nat)
    requires ChainInput(stacks, g, dim, v) && t <= |stacks|
    ensures |ChainOut(nm, stacks, g, dim, v)| == |v| && t * dim + dim <= |v|
    ensures ChainOut(nm, stacks, g, dim, v)[t * dim..t * dim + dim] ==
              if t < |stacks| then StepOut(nm, stacks, g, dim, v, t)[..dim]
              else if t == 0 then v[..dim]
              else StepOut(nm, stacks, g, dim, v, t - 1)[dim..]
  {
    var bs := seq(|stacks| + 1, s requires 0 <= s <= |stacks| => Block(nm, stacks, g, dim, v, s));
    FlattenSlice(bs, dim, t);
  }

  /** A path of one time step has no pairs: it comes out unchanged, with
      nothing added to its log-density. */
  lemma ChainOfOneStepIsIdentity(nm: Numerics, stacks: seq<seq<PlanarFlow>>, g: nat, dim: nat, v: Vec)
    requires ChainInput(stacks, g, dim, v) && |stacks| == 0
    ensures ChainOut(nm, stacks, g, dim, v) == v
    ensures ChainLdj(nm, stacks, g, dim, v, 0) == 0.0
  {
    var bs := seq(|stacks| + 1, s requires 0 <= s <= |stacks| => Block(nm, stacks, g, dim, v, s));
    assert |v| == dim;
    assert bs[0] == Carried(nm, stacks, g, dim, v, 0) == v[..dim] == v;
    assert bs == [v];
    assert Flatten(bs) == Flatten(bs[..0]) + bs[0];
  }

  /** A path of two time steps is one pair: the output is that step's stack
      applied to the whole vector, with that stack's log-determinants. */
  lemma ChainOfTwoStepsIsStack(nm: Numerics, stacks: seq<seq<PlanarFlow>>, g: nat, dim: nat, v: Vec)
    requires ChainInput(stacks, g, dim, v) && |stacks| == 1
    ensures ReachesRow(stacks[0], g, |v|)
    ensures ChainOut(nm, stacks, g, dim, v) == StackOut(nm, stacks[0], g, v)
    ensures ChainLdj(nm, stacks, g, dim, v, 1) == LogDetSum(nm, stacks[0], g, v, |stacks[0]|)
  {
    assert |v| == dim + dim;
    assert v[..dim] + v[dim..dim + dim] == v;
    assert PairIn(nm, stacks, g, dim, v, 0) == v;
    var out := StackOut(nm, stacks[0], g, v);
    assert StepOut(nm, stacks, g, dim, v, 0) == out;
    var bs := seq(|stacks| + 1, s requires 0 <= s <= |stacks| => Block(nm, stacks, g, dim, v, s));
    assert bs[0] == out[..dim];
    assert bs[1] == out[dim..];
    assert Flatten(bs) == Flatten(bs[..1]) + bs[1];
    assert Flatten(bs[..1]) == Flatten(bs[..1][..0]) + bs[0];
    assert out[..dim] + out[dim..] == out;
  }

  /** Paths that agree on their first t + 1 time slots carry the same block
      into step t. */
  lemma {:induction false} CarriedCausal(nm: Numerics, stacks: seq<seq<PlanarFlow>>, g: nat, dim: nat,
                                         v: Vec, v': Vec, t: nat)
    requires ChainInput(stacks, g, dim, v) && ChainInput(stacks, g, dim, v') && t <= |stacks|
    requires forall i :: 0 <= i < t * dim + dim && i < |v| ==> v[i] == v'[i]
    ensures Carried(nm, stacks, g, dim, v, t) == Carried(nm, stacks, g, dim, v', t)
  {
    BlockBounds(t, |stacks| + 1, dim);
    if t == 0 {
      assert v[..dim] == v'[..dim];
    } else {
      BlockBounds(t - 1, |stacks| + 1, dim);
      CarriedCausal(nm, stacks, g, dim, v, v', t - 1);
      assert v[t * dim..t * dim + dim] == v'[t * dim..t * dim + dim];
      assert PairIn(nm, stacks, g, dim, v, t - 1) == PairIn(nm, stacks, g, dim, v', t - 1);
    }
  }

  /** Output block t depends on the path only through time slots 0 .. t + 1:
      the chain looks at most one step ahead. */
  lemma BlockCausal(nm: Numerics, stacks: seq<seq<PlanarFlow>>, g: nat, dim: nat, v: Vec, v': Vec, t: nat)
    requires ChainInput(stacks, g, dim, v) && ChainInput(stacks, g, dim, v') && t <= |stacks|
    requires forall i :: 0 <= i < t * dim + 2 * dim && i < |v| ==> v[i] == v'[i]
    ensures Block(nm, stacks, g, dim, v, t) == Block(nm, stacks, g, dim, v', t)
  {
    CarriedCausal(nm, stacks, g, dim, v, v', t);
    if t < |stacks| {
      BlockBounds(t + 1, |stacks| + 1, dim);
      assert v[(t + 1) * dim..(t + 1) * dim + dim] == v'[(t + 1) * dim..(t + 1) * dim + dim];
      assert PairIn(nm, stacks, g, dim, v, t) == PairIn(nm, stacks, g, dim, v', t);
    }
  }

  // ---------------------------------------------------------------------
  // The chain over a batch

  /** Columns [lo, hi) of every sample (tf.slice along the feature axis). */
  function Columns(xs: Batch, lo: nat, hi: nat): (ys: Batch)
    requires lo <= hi && forall g, j :: 0 <= g < |xs| && 0 <= j < |xs[g]| ==> hi <= |xs[g][j]|
    ensures SameLayout(ys, xs) && Conforms(ys, hi - lo)
    ensures forall g, j :: 0 <= g < |xs| && 0 <= j < |xs[g]| ==> ys[g][j] == xs[g][j][lo..hi]
  {
    seq(|xs|, g requires 0 <= g < |xs| =>
      seq(|xs[g]|, j requires 0 <= j < |xs[g]| => xs[g][j][lo..hi]))
  }

  /** Every sample of a followed by the same sample of b (tf.concat along
      the feature axis). */
  function JoinColumns(a: Batch, b: Batch): (ys: Batch)
    requires SameLayout(a, b)
    ensures SameLayout(ys, a)
    ensures forall g, j :: 0 <= g < |a| && 0 <= j < |a[g]| ==> ys[g][j] == a[g][j] + b[g][j]
  {
    seq(|a|, g requires 0 <= g < |a| =>
      seq(|a[g]|, j requires 0 <= j < |a[g]| => a[g][j] + b[g][j]))
  }

  /** Every batch in blocks has the groups and samples of xs. */
  predicate AllLaidOutAs(blocks: seq<Batch>, xs: Batch) {
    && (forall t :: 0 <= t < |blocks| ==> |blocks[t]| == |xs|)
    && (forall t, g :: 0 <= t < |blocks| && 0 <= g < |xs| ==> |blocks[t][g]| == |xs[g]|)
  }

  /** The per-step blocks concatenated along the feature axis, sample by
      sample. */
  function ConcatSteps(blocks: seq<Batch>, xs: Batch): (ys: Batch)
    requires AllLaidOutAs(blocks, xs)
    ensures SameLayout(ys, xs)
    ensures forall g, j :: 0 <= g < |xs| && 0 <= j < |xs[g]| ==>
              ys[g][j] == Flatten(seq(|blocks|, t requires 0 <= t < |blocks| => blocks[t][g][j]))
  {
    seq(|xs|, g requires 0 <= g < |xs| =>
      seq(|xs[g]|, j requires 0 <= j < |xs[g]| =>
        Flatten(seq(|blocks|, t requires 0 <= t < |blocks| => blocks[t][g][j]))))
  }

  /** The samples are paths of |stacks| + 1 slots of width dim, and every
      layer of every step has one row per group. */
  predicate ChainFits(stacks: seq<seq<PlanarFlow>>, xs: Batch, dim: nat) {
    && Conforms(xs, dim * (|stacks| + 1))
    && forall t, k :: 0 <= t < |stacks| && 0 <= k < |stacks[t]| ==>
         stacks[t][k].Shaped(2 * dim) && stacks[t][k].NFlows() == |xs|
  }

  /** ys, lq is what the chain makes of samples xs with log-density lp. */
  predicate IsChainResult(nm: Numerics, stacks: seq<seq<PlanarFlow>>, dim: nat, xs: Batch, lp: LogDensity,
                          ys: Batch, lq: LogDensity)
    requires ChainFits(stacks, xs, dim) && SameLayout(lp, xs)
  {
    && SameLayout(ys, xs) && SameLayout(lq, xs)
    && forall g, j :: 0 <= g < |xs| && 0 <= j < |xs[g]| ==>
         && ys[g][j] == ChainOut(nm, stacks, g, dim, xs[g][j])
         && lq[g][j] == lp[g][j] + ChainLdj(nm, stacks, g, dim, xs[g][j], |stacks|)
  }

  /** The state of the time loop before step t: pre is every sample's
      carried block, blocks holds the output blocks 0 .. t - 1, and lq the
      log-densities with the first t steps' log-determinants added. */
  predicate ChainLoop(nm: Numerics, stacks: seq<seq<PlanarFlow>>, dim: nat, xs: Batch, lp: LogDensity, t: nat,
                      pre: Batch, blocks: seq<Batch>, lq: LogDensity)
    requires ChainFits(stacks, xs, dim) && SameLayout(lp, xs) && t <= |stacks|
  {
    && SameLayout(pre, xs) && Conforms(pre, dim) && SameLayout(lq, xs)
    && |blocks| == t && AllLaidOutAs(blocks, xs)
    && (forall g, j :: 0 <= g < |xs| && 0 <= j < |xs[g]| ==>
          && pre[g][j] == Carried(nm, stacks, g, dim, xs[g][j], t)
          && lq[g][j] == lp[g][j] + ChainLdj(nm, stacks, g, dim, xs[g][j], t))
    && (forall s, g, j :: 0 <= s < t && 0 <= g < |xs| && 0 <= j < |xs[g]| ==>
          blocks[s][g][j] == Block(nm, stacks, g, dim, xs[g][j], s))
  }

  /** The time loop of sample_log_prob: for each step, join the carried
      block with the next time slot, run the step's layers (adding each
      log-determinant before transforming), emit the first half and carry
      the second; finally emit the carried block and concatenate. */
  method RunChain(nm: Numerics, stacks: seq<seq<PlanarFlow>>, dim: nat, xs: Batch, lp: LogDensity)
    returns (ys: Batch, lq: LogDensity)
    requires ChainFits(stacks, xs, dim) && SameLayout(lp, xs)
    ensures IsChainResult(nm, stacks, dim, xs, lp, ys, lq)
  {
    BlockBounds(0, |stacks| + 1, dim);
    var pre := Columns(xs, 0, dim);
    var blocks: seq<Batch> := [];
    lq := lp;
    for t := 0 to |stacks|
      invariant ChainLoop(nm, stacks, dim, xs, lp, t, pre, blocks, lq)
    {
      pre, blocks, lq := Advance(nm, stacks, dim, xs, lp, t, pre, blocks, lq);
    }
    AppendLastBlock(nm, stacks, dim, xs, blocks, pre);
    ys := ConcatSteps(blocks + [pre], xs);
    ConcatStepsIsChainOut(nm, stacks, dim, xs, lp, blocks + [pre], lq);
  }

  /** One pass of the time loop over the whole state. */
  method Advance(nm: Numerics, stacks: seq<seq<PlanarFlow>>, dim: nat, xs: Batch, lp: LogDensity, t: nat,
                 pre: Batch, blocks: seq<Batch>, lq: LogDensity)
    returns (pre': Batch, blocks': seq<Batch>, lq': LogDensity)
    requires ChainFits(stacks, xs, dim) && SameLayout(lp, xs) && t < |stacks|
    requires ChainLoop(nm, stacks, dim, xs, lp, t, pre, blocks, lq)
    ensures ChainLoop(nm, stacks, dim, xs, lp, t + 1, pre', blocks', lq')
  {
    var block;
    block, pre', lq' := RunStep(nm, stacks, dim, xs, lp, t, pre, lq);
    blocks' := blocks + [block];
    forall s, g, j | 0 <= s < t + 1 && 0 <= g < |xs| && 0 <= j < |xs[g]|
      ensures blocks'[s][g][j] == Block(nm, stacks, g, dim, xs[g][j], s)
    {
      if s < t {
        assert blocks'[s] == blocks[s];
      }
    }
  }

  /** After the loop, appending the carried block completes the blocks
      Block(0) .. Block(|stacks|). */
  lemma AppendLastBlock(nm: Numerics, stacks: seq<seq<PlanarFlow>>, dim: nat, xs: Batch, blocks: seq<Batch>, pre: Batch)
    requires ChainFits(stacks, xs, dim) && |blocks| == |stacks| && AllLaidOutAs(blocks, xs) && SameLayout(pre, xs)
    requires forall s, g, j :: 0 <= s < |blocks| && 0 <= g < |xs| && 0 <= j < |xs[g]| ==>
               blocks[s][g][j] == Block(nm, stacks, g, dim, xs[g][j], s)
    requires forall g, j :: 0 <= g < |xs| && 0 <= j < |xs[g]| ==>
               pre[g][j] == Carried(nm, stacks, g, dim, xs[g][j], |stacks|)
    ensures AllLaidOutAs(blocks + [pre], xs)
    ensures forall s, g, j :: 0 <= s < |blocks| + 1 && 0 <= g < |xs| && 0 <= j < |xs[g]| ==>
              (blocks + [pre])[s][g][j] == Block(nm, stacks, g, dim, xs[g][j], s)
  {
    var all := blocks + [pre];
    forall s, g, j | 0 <= s < |all| && 0 <= g < |xs| && 0 <= j < |xs[g]|
      ensures all[s][g][j] == Block(nm, stacks, g, dim, xs[g][j], s)
    {
      if s < |blocks| {
        assert all[s] == blocks[s];
      }
    }
  }

  /** Concatenating the blocks Block(0) .. Block(|stacks|) of every sample
      gives its ChainOut. */
  lemma ConcatStepsIsChainOut(nm: Numerics, stacks: seq<seq<PlanarFlow>>, dim: nat, xs: Batch, lp: LogDensity,
                              blocks: seq<Batch>, lq: LogDensity)
    requires ChainFits(stacks, xs, dim) && SameLayout(lp, xs) && SameLayout(lq, xs)
    requires |blocks| == |stacks| + 1 && AllLaidOutAs(blocks, xs)
    requires forall s, g, j :: 0 <= s < |blocks| && 0 <= g < |xs| && 0 <= j < |xs[g]| ==>
               blocks[s][g][j] == Block(nm, stacks, g, dim, xs[g][j], s)
    requires forall g, j :: 0 <= g < |xs| && 0 <= j < |xs[g]| ==>
               lq[g][j] == lp[g][j] + ChainLdj(nm, stacks, g, dim, xs[g][j], |stacks|)
    ensures IsChainResult(nm, stacks, dim, xs, lp, ConcatSteps(blocks, xs), lq)
  {
    var ys := ConcatSteps(blocks, xs);
    forall g, j | 0 <= g < |xs| && 0 <= j < |xs[g]|
      ensures ys[g][j] == ChainOut(nm, stacks, g, dim, xs[g][j])
    {
      assert seq(|blocks|, t requires 0 <= t < |blocks| => blocks[t][g][j])
          == seq(|stacks| + 1, t requires 0 <= t <= |stacks| => Block(nm, stacks, g, dim, xs[g][j], t));
    }
  }

  /** One pass of the time loop: join the carried block with time slot
      t + 1, run step t's layers on the pair, and split the result into
      block t and the block carried into step t + 1. */
  method RunStep(nm: Numerics, stacks: seq<seq<PlanarFlow>>, dim: nat, xs: Batch, lp: LogDensity, t: nat,
                 pre: Batch, lq: LogDensity)
    returns (block: Batch, carried: Batch, lqNext: LogDensity)
    requires ChainFits(stacks, xs, dim) && SameLayout(lp, xs) && t < |stacks|
    requires SameLayout(pre, xs) && Conforms(pre, dim) && SameLayout(lq, xs)
    requires forall g, j :: 0 <= g < |xs| && 0 <= j < |xs[g]| ==>
               pre[g][j] == Carried(nm, stacks, g, dim, xs[g][j], t)
    requires forall g, j :: 0 <= g < |xs| && 0 <= j < |xs[g]| ==>
               lq[g][j] == lp[g][j] + ChainLdj(nm, stacks, g, dim, xs[g][j], t)
    ensures SameLayout(block, xs) && SameLayout(carried, xs) && Conforms(carried, dim) && SameLayout(lqNext, xs)
    ensures forall g, j :: 0 <= g < |xs| && 0 <= j < |xs[g]| ==>
              && block[g][j] == Block(nm, stacks, g, dim, xs[g][j], t)
              && carried[g][j] == Carried(nm, stacks, g, dim, xs[g][j], t + 1)
              && lqNext[g][j] == lp[g][j] + ChainLdj(nm, stacks, g, dim, xs[g][j], t + 1)
  {
    var pair := StepInput(stacks, dim, xs, t, pre);
    var out;
    out, lqNext := RunLayers(nm, stacks[t], pair, lq, 2 * dim);
    StepOutputs(nm, stacks, dim, xs, lp, t, pre, pair, lq, out, lqNext);
    block := Columns(out, 0, dim);
    carried := Columns(out, dim, 2 * dim);
  }

  /** latent_pair of step t for every sample: its carried block joined with
      its time slot t + 1. */
  function StepInput(stacks: seq<seq<PlanarFlow>>, dim: nat, xs: Batch, t: nat, pre: Batch): (pair: Batch)
    requires ChainFits(stacks, xs, dim) && t < |stacks|
    requires SameLayout(pre, xs) && Conforms(pre, dim)
    ensures SameLayout(pair, xs) && Conforms(pair, 2 * dim) && StackFits(stacks[t], pair, 2 * dim)
    ensures (t + 1) * dim + dim <= dim * (|stacks| + 1)
    ensures forall g, j :: 0 <= g < |xs| && 0 <= j < |xs[g]| ==>
              pair[g][j] == pre[g][j] + xs[g][j][(t + 1) * dim..(t + 1) * dim + dim]
  {
    BlockBounds(t + 1, |stacks| + 1, dim);
    JoinColumns(pre, Columns(xs, (t + 1) * dim, (t + 1) * dim + dim))
  }

  /** What step t's layers make of the pairs: the first half of every
      transformed pair is block t, the second half the block carried into
      step t + 1, and the log-densities gain step t's log-determinants. */
  lemma StepOutputs(nm: Numerics, stacks: seq<seq<PlanarFlow>>, dim: nat, xs: Batch, lp: LogDensity, t: nat,
                    pre: Batch, pair: Batch, lq: LogDensity, out: Batch, lqNext: LogDensity)
    requires ChainFits(stacks, xs, dim) && SameLayout(lp, xs) && t < |stacks|
    requires SameLayout(pre, xs) && Conforms(pre, dim) && SameLayout(lq, xs)
    requires forall g, j :: 0 <= g < |xs| && 0 <= j < |xs[g]| ==>
               pre[g][j] == Carried(nm, stacks, g, dim, xs[g][j], t)
    requires forall g, j :: 0 <= g < |xs| && 0 <= j < |xs[g]| ==>
               lq[g][j] == lp[g][j] + ChainLdj(nm, stacks, g, dim, xs[g][j], t)
    requires pair == StepInput(stacks, dim, xs, t, pre)
    requires IsStackResult(nm, stacks[t], pair, lq, 2 * dim, out, lqNext)
    ensures SameLayout(out, xs) && Conforms(out, 2 * dim) && SameLayout(lqNext, xs)
    ensures forall g, j :: 0 <= g < |xs| && 0 <= j < |xs[g]| ==>
              && out[g][j][0..dim] == Block(nm, stacks, g, dim, xs[g][j], t)
              && out[g][j][dim..2 * dim] == Carried(nm, stacks, g, dim, xs[g][j], t + 1)
              && lqNext[g][j] == lp[g][j] + ChainLdj(nm, stacks, g, dim, xs[g][j], t + 1)
  {
    forall g, j | 0 <= g < |xs| && 0 <= j < |xs[g]|
      ensures |out[g][j]| == 2 * dim
      ensures out[g][j][0..dim] == Block(nm, stacks, g, dim, xs[g][j], t)
      ensures out[g][j][dim..2 * dim] == Carried(nm, stacks, g, dim, xs[g][j], t + 1)
      ensures lqNext[g][j] == lp[g][j] + ChainLdj(nm, stacks, g, dim, xs[g][j], t + 1)
    {
      StepAdvances(nm, stacks, g, dim, xs[g][j], t, pair[g][j], out[g][j]);
    }
  }

  /** One step of the time loop, for one sample: the pair it builds is
      PairIn(t), and the transformed pair yields block t and the carried
      block of step t + 1. */
  lemma StepAdvances(nm: Numerics, stacks: seq<seq<PlanarFlow>>, g: nat, dim: nat, v: Vec, t: nat, pair: Vec, out: Vec)
    requires ChainInput(stacks, g, dim, v) && t < |stacks|
    requires t * dim + 2 * dim <= |v|
    requires pair == Carried(nm, stacks, g, dim, v, t) + v[(t + 1) * dim..(t + 1) * dim + dim]
    requires out == StackOut(nm, stacks[t], g, pair)
    ensures pair == PairIn(nm, stacks, g, dim, v, t) && out == StepOut(nm, stacks, g, dim, v, t)
    ensures out[dim..2 * dim] == Carried(nm, stacks, g, dim, v, t + 1)
    ensures out[0..dim] == Block(nm, stacks, g, dim, v, t)
  {
  }

  // ---------------------------------------------------------------------
  // The random variable

  /** The number of adjacent pairs of time slots, one layer stack each. */
  function Pairs(time: nat): nat {
    if time == 0 then 0 else time - 1
  }

  class DynaFlowRandomVariable {
    const nm: Numerics
    const dim: nat
    const time: nat
    const numLayers: nat
    /** Width of the whole latent path, dim * time. */
    const fullDim: nat
    const baseDist: BaseDist
    /** flows[t] is the stack of numLayers single flows on the pair of time
        slots t and t + 1. */
    const flows: seq<seq<PlanarFlow>>

    ghost predicate Valid() {
      && Sound(nm)
      && fullDim == dim * time
      && |flows| == Pairs(time)
      && (forall t :: 0 <= t < |flows| ==> |flows[t]| == numLayers)
      && (forall t, i :: 0 <= t < |flows| && 0 <= i < |flows[t]| ==>
            flows[t][i].Valid(nm) && flows[t][i].Shaped(2 * dim) && flows[t][i].IsSingleFlow())
    }

    /** draws[t][i] is the random draw of layer i of step t. */
    constructor (nm: Numerics, dim: nat, time: nat, numLayers: nat, baseDist: Option<BaseDist>,
                 draws: seq<seq<Params>>)
      requires Sound(nm)
      requires |draws| == Pairs(time)
      requires forall t :: 0 <= t < |draws| ==> |draws[t]| == numLayers
      requires forall t, i :: 0 <= t < |draws| && 0 <= i < |draws[t]| ==>
                 draws[t][i].IsDraw(2 * dim) && draws[t][i].Admissible()
      ensures Valid()
      ensures this.nm == nm && this.dim == dim && this.time == time && this.numLayers == numLayers
      ensures this.baseDist == if baseDist.None? then StandardNormal(nm) else baseDist.value
      ensures forall t, i :: 0 <= t < |draws| && 0 <= i < numLayers ==>
                flows[t][i] == Construct(nm, 2 * dim, None, None, None, draws[t][i])
    {
      var layers := SetupFlowLayers(nm, dim, time, numLayers, draws);
      this.nm := nm;
      this.dim := dim;
      this.time := time;
      this.numLayers := numLayers;
      this.fullDim := dim * time;
      this.baseDist := if baseDist.None? then StandardNormal(nm) else baseDist.value;
      this.flows := layers;
    }

    /** setup_flow_layers: for each of the time - 1 pairs, numLayers fresh
        single flows of width 2 * dim. */
    static method SetupFlowLayers(nm: Numerics, dim: nat, time: nat, numLayers: nat, draws: seq<seq<Params>>)
      returns (flows: seq<seq<PlanarFlow>>)
      requires |draws| == Pairs(time)
      requires forall t :: 0 <= t < |draws| ==> |draws[t]| == numLayers
      requires forall t, i :: 0 <= t < |draws| && 0 <= i < |draws[t]| ==>
                 draws[t][i].IsDraw(2 * dim) && draws[t][i].Admissible()
      ensures |flows| == Pairs(time)
      ensures forall t :: 0 <= t < |flows| ==> |flows[t]| == numLayers
      ensures forall t, i :: 0 <= t < |flows| && 0 <= i < numLayers ==>
                flows[t][i] == Construct(nm, 2 * dim, None, None, None, draws[t][i])
    {
      flows := [];
      for t := 0 to Pairs(time)
        invariant |flows| == t
        invariant forall s :: 0 <= s < t ==> |flows[s]| == numLayers
        invariant forall s, i :: 0 <= s < t && 0 <= i < numLayers ==>
                    flows[s][i] == Construct(nm, 2 * dim, None, None, None, draws[s][i])
      {
        var stack: seq<PlanarFlow> := [];
        for i := 0 to numLayers
          invariant |stack| == i
          invariant forall k :: 0 <= k < i ==> stack[k] == Construct(nm, 2 * dim, None, None, None, draws[t][k])
        {
          stack := stack + [Construct(nm, 2 * dim, None, None, None, draws[t][i])];
        }
        flows := flows + [stack];
      }
    }

    /** sample_log_prob: a precomputed (samples, log_prob) pair has no
        `sample`; with no time slot at all, slicing the first slot of width
        dim out of an empty path fails unless dim is 0. Otherwise the n draws
        (one group, since every flow is single) run through the time chain,
        starting from their summed base log-density. */
    method SampleLogProb(n: nat, draws: Batch) returns (r: Result<Sample>)
      requires Valid()
      requires |draws| == 1 && |draws[0]| == n && Conforms(draws, fullDim)
      ensures r.Err? <==> baseDist.Precomputed? || (time == 0 && dim > 0)
      ensures r.Err? ==> r.error == if baseDist.Precomputed? then NotSampleable else IndexOutOfRange
      ensures r.Ok? ==> ChainFits(flows, draws, dim)
      ensures r.Ok? ==> IsChainResult(nm, flows, dim, draws, BaseLogProb(baseDist.coordLogPdf, draws),
                                      r.value.samples, r.value.logProb)
    {
      if baseDist.Precomputed? {
        return Err(NotSampleable);
      }
      if time == 0 && dim > 0 {
        return Err(IndexOutOfRange);
      }
      assert dim * (|flows| + 1) == fullDim;
      var logProb := BaseLogProb(baseDist.coordLogPdf, draws);
      var samples, lq := RunChain(nm, flows, dim, draws, logProb);
      r := Ok(Sample(samples, lq));
    }
  }
}
