/** PlanarFlow: one invertible planar layer
      f(x) = x + u_bar * tanh(x . w + b)
    with its reversibility correction of u and its closed-form
    log-determinant, for one row of parameters or for n_flows independent
    rows evaluated side by side. */
module PlanarFlows {
  import opened Common

  /** The library's elementwise numerics, which the model leaves
      uninterpreted: tanh, softplus, log and the standard normal log-density. */
  datatype Numerics = Numerics(
    tanh: real -> real,
    softplus: real -> real,
    log: real -> real,
    normalLogPdf: real -> real)

  /** The only facts the model uses about the numerics. */
  ghost predicate Sound(nm: Numerics) {
    && (forall x :: -1.0 < nm.tanh(x) < 1.0)
    && (forall x :: nm.softplus(x) > 0.0)
  }

  /** A batch of samples: group g, sample j, one vector each. A single flow
      takes one group (the [n, dim] tensor); n_flows > 1 parallel flows take
      one group per flow (the [n_flows, n, dim] tensor). */
  type Batch = seq<seq<Vec>>

  /** One log-density per sample, with the layout of a batch. */
  type LogDensity = seq<seq<real>>

  predicate Conforms(xs: Batch, d: nat) {
    forall g, j :: 0 <= g < |xs| && 0 <= j < |xs[g]| ==> |xs[g][j]| == d
  }

  predicate SameLayout<A, B>(a: seq<seq<A>>, b: seq<seq<B>>) {
    |a| == |b| && forall g :: 0 <= g < |a| ==> |a[g]| == |b[g]|
  }

  /** Parameters w, b, u of a flow, one row per parallel flow. */
  datatype Params = Params(w: seq<Vec>, b: seq<real>, u: seq<Vec>) {
    /** Same number of rows, u and w rows of equal width, no zero w row (the
        reversibility correction divides by the squared norm of w). */
    predicate Admissible() {
      && |w| == |b| == |u|
      && forall g :: 0 <= g < |w| ==> |u[g]| == |w[g]| && NormSq(w[g]) != 0.0
    }

    /** The shape of a fresh random draw: w, u of shape [1, dim], b of shape [1]. */
    predicate IsDraw(dim: nat) {
      |w| == |b| == |u| == 1 && |w[0]| == |u[0]| == dim
    }
  }

  datatype PlanarFlow = PlanarFlow(w: seq<Vec>, b: seq<real>, u: seq<Vec>, uBar: seq<Vec>) {
    function NFlows(): nat {
      |u|
    }

    predicate IsSingleFlow() {
      NFlows() == 1
    }

    /** Every parameter row has width d. */
    predicate Shaped(d: nat) {
      && |w| == |b| == |u| == |uBar|
      && forall g :: 0 <= g < |u| ==> |w[g]| == |u[g]| == |uBar[g]| == d
    }

    /** u_bar is the reversibility correction of u, computed at construction. */
    predicate Valid(nm: Numerics) {
      && |w| == |b| == |u| == |uBar|
      && forall g :: 0 <= g < |u| ==>
           && |w[g]| == |u[g]|
           && NormSq(w[g]) != 0.0
           && uBar[g] == CorrectedU(nm, w[g], u[g])
    }
  }

  /** The reversibility correction of one row:
      u + (softplus(u . w) - u . w - 1) * w / |w|^2.
      Its dot product with w is softplus(u . w) - 1, which exceeds -1. */
  function CorrectedU(nm: Numerics, w: Vec, u: Vec): (uBar: Vec)
    requires |u| == |w| && NormSq(w) != 0.0
    ensures |uBar| == |u|
    ensures Dot(uBar, w) == nm.softplus(Dot(u, w)) - 1.0
  {
    var dot := Dot(u, w);
    var scalar := -1.0 + nm.softplus(dot) - dot;
    var comp := Scale(scalar / NormSq(w), w);
    DotAddLeft(u, comp, w);
    DotScaleLeft(scalar / NormSq(w), w, w);
    Add(u, comp)
  }

  /** reversible_constraint: the correction applied to every row. */
  function ReversibleConstraint(nm: Numerics, w: seq<Vec>, u: seq<Vec>): (uBar: seq<Vec>)
    requires |w| == |u|
    requires forall g :: 0 <= g < |w| ==> |u[g]| == |w[g]| && NormSq(w[g]) != 0.0
    ensures |uBar| == |u|
    ensures forall g :: 0 <= g < |u| ==> uBar[g] == CorrectedU(nm, w[g], u[g])
  {
    seq(|u|, g requires 0 <= g < |u| => CorrectedU(nm, w[g], u[g]))
  }

  /** The flow built from supplied parameters (w, b, u all given). */
  function FromParams(nm: Numerics, p: Params): (f: PlanarFlow)
    requires p.Admissible()
    ensures f.Valid(nm) && f.w == p.w && f.b == p.b && f.u == p.u
  {
    PlanarFlow(p.w, p.b, p.u, ReversibleConstraint(nm, p.w, p.u))
  }

  /** PlanarFlow(dim, w, b, u): when any of w, b, u is missing all three come
      from the random draw `draw` (shape [1, dim]); otherwise the supplied
      ones are used and dim plays no part. */
  function Construct(nm: Numerics, dim: nat, w: Option<seq<Vec>>, b: Option<seq<real>>,
                     u: Option<seq<Vec>>, draw: Params): (f: PlanarFlow)
    requires w.None? || b.None? || u.None? ==> draw.IsDraw(dim) && draw.Admissible()
    requires w.Some? && b.Some? && u.Some? ==> Params(w.value, b.value, u.value).Admissible()
    ensures f.Valid(nm)
    ensures w.None? || b.None? || u.None? ==>
              f.w == draw.w && f.b == draw.b && f.u == draw.u && f.IsSingleFlow() && f.Shaped(dim)
    ensures w.Some? && b.Some? && u.Some? ==>
              f.w == w.value && f.b == b.value && f.u == u.value && f.NFlows() == |u.value|
  {
    if w.None? || b.None? || u.None? then FromParams(nm, draw)
    else FromParams(nm, Params(w.value, b.value, u.value))
  }

  /** Reversibility: every row of a constructed flow has
      u_bar . w == softplus(u . w) - 1 > -1, the condition under which the
      planar map is invertible. */
  lemma ReversibilityHolds(nm: Numerics, f: PlanarFlow, g: nat)
    requires Sound(nm) && f.Valid(nm) && g < f.NFlows()
    ensures Dot(f.uBar[g], f.w[g]) == nm.softplus(Dot(f.u[g], f.w[g])) - 1.0
    ensures Dot(f.uBar[g], f.w[g]) > -1.0
  {
    assert f.uBar[g] == CorrectedU(nm, f.w[g], f.u[g]);
  }

  // ---------------------------------------------------------------------
  // One sample through one row

  /** The pre-activation x . w + b of row g ("dialation" in the source). */
  function Dilation(f: PlanarFlow, g: nat, x: Vec): real
    requires f.Shaped(|x|) && g < f.NFlows()
  {
    Dot(x, f.w[g]) + f.b[g]
  }

  /** Row g of the flow applied to one sample: x + u_bar * tanh(x . w + b). */
  function Apply(nm: Numerics, f: PlanarFlow, g: nat, x: Vec): (y: Vec)
    requires f.Shaped(|x|) && g < f.NFlows()
    ensures |y| == |x|
  {
    Add(x, Scale(nm.tanh(Dilation(f, g, x)), f.uBar[g]))
  }

  /** 1 + (u_bar . w) * (1 - tanh^2(x . w + b)): the Jacobian determinant of
      the planar map at x, by the matrix-determinant lemma. */
  function JacobianFactor(nm: Numerics, f: PlanarFlow, g: nat, x: Vec): real
    requires f.Shaped(|x|) && g < f.NFlows()
  {
    var t := nm.tanh(Dilation(f, g, x));
    1.0 + Dot(f.uBar[g], f.w[g]) * (1.0 - t * t)
  }

  function Abs(x: real): real {
    if x < 0.0 then -x else x
  }

  /** Row g's log_det_jacobian term for one sample: -log|det J(x)|. */
  function LogDetAt(nm: Numerics, f: PlanarFlow, g: nat, x: Vec): real
    requires f.Shaped(|x|) && g < f.NFlows()
  {
    -nm.log(Abs(JacobianFactor(nm, f, g, x)))
  }

  /** Transform moves only along u_bar: the output has the input's width, its
      displacement is c * u_bar for a coefficient c in (-1, 1), and so every
      direction z orthogonal to u_bar keeps its component. */
  lemma {:induction false} ApplyMovesAlongUBar(nm: Numerics, f: PlanarFlow, g: nat, x: Vec, z: Vec)
    requires Sound(nm) && f.Shaped(|x|) && g < f.NFlows() && |z| == |x|
    ensures var c := nm.tanh(Dilation(f, g, x));
      && -1.0 < c < 1.0
      && |Apply(nm, f, g, x)| == |x|
      && (forall k :: 0 <= k < |x| ==> Apply(nm, f, g, x)[k] - x[k] == c * f.uBar[g][k])
    ensures Dot(f.uBar[g], z) == 0.0 ==> Dot(Apply(nm, f, g, x), z) == Dot(x, z)
  {
    var c := nm.tanh(Dilation(f, g, x));
    DotAddLeft(x, Scale(c, f.uBar[g]), z);
    DotScaleLeft(c, f.uBar[g], z);
  }

  /** On a constructed flow the Jacobian determinant is strictly positive, so
      the absolute value in log_det_jacobian is the identity and the log is
      never taken of zero. */
  lemma JacobianPositive(nm: Numerics, f: PlanarFlow, g: nat, x: Vec)
    requires Sound(nm) && f.Valid(nm) && f.Shaped(|x|) && g < f.NFlows()
    ensures JacobianFactor(nm, f, g, x) > 0.0
    ensures LogDetAt(nm, f, g, x) == -nm.log(JacobianFactor(nm, f, g, x))
  {
    var t := nm.tanh(Dilation(f, g, x));
    var m := Dot(f.uBar[g], f.w[g]);
    ReversibilityHolds(nm, f, g);
    var s := 1.0 - t * t;
    assert 0.0 < s <= 1.0 by {
      if t >= 0.0 { assert t * t <= t * 1.0; } else { assert t * t <= (-t) * 1.0; }
    }
    if m < 0.0 {
      assert m * s >= m * 1.0;
    } else {
      assert m * s >= 0.0;
    }
  }

  // ---------------------------------------------------------------------
  // A whole batch through the flow

  /** The batch fits the flow: one group per parallel flow, every sample as
      wide as the parameter rows. */
  predicate Fits(f: PlanarFlow, xs: Batch, d: nat) {
    f.Shaped(d) && |xs| == f.NFlows() && Conforms(xs, d)
  }

  /** transform: a single flow broadcasts its one row over the [n, dim]
      samples; n_flows > 1 flows apply row g to group g only. */
  function Transform(nm: Numerics, f: PlanarFlow, xs: Batch, d: nat): (ys: Batch)
    requires Fits(f, xs, d)
    ensures SameLayout(ys, xs) && Conforms(ys, d)
    ensures forall g, j :: 0 <= g < |xs| && 0 <= j < |xs[g]| ==> ys[g][j] == Apply(nm, f, g, xs[g][j])
  {
    if f.IsSingleFlow() then
      [seq(|xs[0]|, j requires 0 <= j < |xs[0]| => Apply(nm, f, 0, xs[0][j]))]
    else
      seq(|xs|, g requires 0 <= g < |xs| =>
        seq(|xs[g]|, j requires 0 <= j < |xs[g]| => Apply(nm, f, g, xs[g][j])))
  }

  /** log_det_jacobian: one term per sample, the parameter row chosen as in
      Transform. */
  function LogDet(nm: Numerics, f: PlanarFlow, xs: Batch, d: nat): (ls: LogDensity)
    requires Fits(f, xs, d)
    ensures SameLayout(ls, xs)
    ensures forall g, j :: 0 <= g < |xs| && 0 <= j < |xs[g]| ==> ls[g][j] == LogDetAt(nm, f, g, xs[g][j])
  {
    if f.IsSingleFlow() then
      [seq(|xs[0]|, j requires 0 <= j < |xs[0]| => LogDetAt(nm, f, 0, xs[0][j]))]
    else
      seq(|xs|, g requires 0 <= g < |xs| =>
        seq(|xs[g]|, j requires 0 <= j < |xs[g]| => LogDetAt(nm, f, g, xs[g][j])))
  }

  /** Row g of a stacked flow, as a single flow of its own. */
  function RowFlow(f: PlanarFlow, g: nat): (r: PlanarFlow)
    requires g < f.NFlows() && |f.w| == |f.b| == |f.u| == |f.uBar|
    ensures r.IsSingleFlow()
  {
    PlanarFlow([f.w[g]], [f.b[g]], [f.u[g]], [f.uBar[g]])
  }

  /** Multi-flow independence: in n_flows > 1 mode, group g of the output and
      of the log-determinant is what the single flow made of row g alone
      computes on group g, so no parameter row leaks into another group. */
  lemma MultiFlowIndependence(nm: Numerics, f: PlanarFlow, xs: Batch, d: nat, g: nat)
    requires Fits(f, xs, d) && !f.IsSingleFlow() && g < |xs|
    ensures Fits(RowFlow(f, g), [xs[g]], d)
    ensures f.Valid(nm) ==> RowFlow(f, g).Valid(nm)
    ensures Transform(nm, f, xs, d)[g] == Transform(nm, RowFlow(f, g), [xs[g]], d)[0]
    ensures LogDet(nm, f, xs, d)[g] == LogDet(nm, RowFlow(f, g), [xs[g]], d)[0]
  {
    var r := RowFlow(f, g);
    assert Fits(r, [xs[g]], d);
    var ys, ys1 := Transform(nm, f, xs, d)[g], Transform(nm, r, [xs[g]], d)[0];
    forall j | 0 <= j < |xs[g]| ensures ys[j] == ys1[j] {
      assert Dilation(f, g, xs[g][j]) == Dilation(r, 0, xs[g][j]);
    }
    var ls, ls1 := LogDet(nm, f, xs, d)[g], LogDet(nm, r, [xs[g]], d)[0];
    forall j | 0 <= j < |xs[g]| ensures ls[j] == ls1[j] {
      assert JacobianFactor(nm, f, g, xs[g][j]) == JacobianFactor(nm, r, 0, xs[g][j]);
    }
  }
}
