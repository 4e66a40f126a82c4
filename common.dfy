/** Shared vocabulary of the model: real vectors, flat-sequence concatenation,
    the index arithmetic of contiguous blocks, and the error results the
    source raises. */
module Common {

  /** A row of a real tensor. */
  type Vec = seq<real>

  datatype Option<T> = None | Some(value: T)

  /** The exceptions the modelled code can raise. */
  datatype Error =
    | IndexOutOfRange  // a Python list indexed past its end
    | EmptyConcat      // tf.concat of an empty list
    | NotSampleable    // `.sample` called on a (samples, log_prob) pair

  datatype Result<T> = Ok(value: T) | Err(error: Error)

  // ---------------------------------------------------------------------
  // Vector algebra

  function Dot(a: Vec, b: Vec): real
    requires |a| == |b|
  {
    if |a| == 0 then 0.0 else a[0] * b[0] + Dot(a[1..], b[1..])
  }

  function NormSq(a: Vec): real {
    Dot(a, a)
  }

  function Add(a: Vec, b: Vec): (r: Vec)
    requires |a| == |b|
    ensures |r| == |a|
  {
    seq(|a|, k requires 0 <= k < |a| => a[k] + b[k])
  }

  function Scale(c: real, a: Vec): (r: Vec)
    ensures |r| == |a|
  {
    seq(|a|, k requires 0 <= k < |a| => c * a[k])
  }

  /** The dot product distributes over vector addition in its left argument. */
  lemma {:induction false} DotAddLeft(a: Vec, b: Vec, c: Vec)
    requires |a| == |b| == |c|
    ensures Dot(Add(a, b), c) == Dot(a, c) + Dot(b, c)
  {
    if |a| > 0 {
      assert Add(a, b)[1..] == Add(a[1..], b[1..]);
      DotAddLeft(a[1..], b[1..], c[1..]);
    }
  }

  /** A scalar factor in the left argument moves out of the dot product. */
  lemma {:induction false} DotScaleLeft(x: real, a: Vec, b: Vec)
    requires |a| == |b|
    ensures Dot(Scale(x, a), b) == x * Dot(a, b)
  {
    if |a| > 0 {
      forall k | 0 <= k < |a| - 1 ensures Scale(x, a)[1..][k] == Scale(x, a[1..])[k] { }
      assert Scale(x, a)[1..] == Scale(x, a[1..]);
      DotScaleLeft(x, a[1..], b[1..]);
      calc {
        Dot(Scale(x, a), b);
        x * a[0] * b[0] + x * Dot(a[1..], b[1..]);
        x * (a[0] * b[0] + Dot(a[1..], b[1..]));
      }
    }
  }

  // ---------------------------------------------------------------------
  // Concatenation of a list of blocks (tf.concat along one axis)

  /** Concatenates the blocks in list order, as appending them one by one does. */
  function Flatten<T>(bs: seq<seq<T>>): seq<T>
  {
    if |bs| == 0 then [] else Flatten(bs[..|bs| - 1]) + bs[|bs| - 1]
  }

  predicate Uniform<T>(bs: seq<seq<T>>, d: nat) {
    forall t :: 0 <= t < |bs| ==> |bs[t]| == d
  }

  /** Blocks of equal width d concatenate to d times as many elements, and
      element k of block t lands at position t * d + k. */
  lemma {:induction false} FlattenAt<T>(bs: seq<seq<T>>, d: nat, t: nat, k: nat)
    requires Uniform(bs, d) && t < |bs| && k < d
    ensures |Flatten(bs)| == d * |bs|
    ensures t * d + k < |Flatten(bs)| && Flatten(bs)[t * d + k] == bs[t][k]
  {
    var n := |bs|;
    FlattenLength(bs, d);
    if t < n - 1 {
      FlattenAt(bs[..n - 1], d, t, k);
    } else {
      FlattenLength(bs[..n - 1], d);
      assert (n - 1) * d == d * (n - 1);
    }
  }

  lemma {:induction false} FlattenLength<T>(bs: seq<seq<T>>, d: nat)
    requires Uniform(bs, d)
    ensures |Flatten(bs)| == d * |bs|
  {
    if |bs| > 0 {
      FlattenLength(bs[..|bs| - 1], d);
    }
  }

  /** Slicing block t back out of the concatenation gives block t. */
  lemma FlattenSlice<T>(bs: seq<seq<T>>, d: nat, t: nat)
    requires Uniform(bs, d) && t < |bs|
    ensures |Flatten(bs)| == d * |bs| && t * d + d <= d * |bs|
    ensures Flatten(bs)[t * d..t * d + d] == bs[t]
  {
    FlattenLength(bs, d);
    BlockBounds(t, |bs|, d);
    forall k | 0 <= k < d
      ensures Flatten(bs)[t * d..t * d + d][k] == bs[t][k]
    {
      FlattenAt(bs, d, t, k);
    }
  }

  /** Every entry of a concatenation is an entry of one of the blocks. */
  lemma {:induction false} FlattenElement<T>(bs: seq<seq<T>>, k: nat)
    requires k < |Flatten(bs)|
    ensures exists t, i :: 0 <= t < |bs| && 0 <= i < |bs[t]| && Flatten(bs)[k] == bs[t][i]
  {
    var n := |bs|;
    if k < |Flatten(bs[..n - 1])| {
      FlattenElement(bs[..n - 1], k);
      var t, i :| 0 <= t < n - 1 && 0 <= i < |bs[..n - 1][t]| && Flatten(bs[..n - 1])[k] == bs[..n - 1][t][i];
      assert Flatten(bs)[k] == bs[t][i];
    } else {
      var i := k - |Flatten(bs[..n - 1])|;
      assert Flatten(bs)[k] == bs[n - 1][i];
    }
  }

  /** Cutting a row of width n * d into n contiguous blocks of width d and
      concatenating them again gives the row back. */
  lemma {:induction false} FlattenOfBlocks<T>(row: seq<T>, n: nat, d: nat)
    requires |row| == n * d
    ensures Flatten(Blocks(row, n, d)) == row
  {
    var bs := Blocks(row, n, d);
    FlattenLength(bs, d);
    forall c | 0 <= c < |row|
      ensures Flatten(bs)[c] == row[c]
    {
      var i, k := BlockOf(c, n, d);
      FlattenAt(bs, d, i, k);
      BlockBounds(i, n, d);
      assert bs[i] == row[i * d..i * d + d];
    }
  }

  /** The n contiguous blocks of width d of a row of width n * d. */
  function Blocks<T>(row: seq<T>, n: nat, d: nat): (bs: seq<seq<T>>)
    requires |row| == n * d
    ensures |bs| == n && Uniform(bs, d)
  {
    BlocksFit(n, d);
    seq(n, i requires 0 <= i < n => row[i * d..i * d + d])
  }

  // ---------------------------------------------------------------------
  // Index arithmetic

  lemma MulMono(a: nat, b: nat, d: nat)
    requires a <= b
    ensures a * d <= b * d && a * d <= d * b
  {
    assert b * d == a * d + (b - a) * d;
  }

  /** Each of n blocks of width d ends within the n * d positions. */
  lemma BlocksFit(n: nat, d: nat)
    ensures forall i :: 0 <= i < n ==> i * d + d <= n * d
  {
    forall i | 0 <= i < n ensures i * d + d <= n * d {
      BlockBounds(i, n, d);
    }
  }

  /** A product that exceeds some natural number has two positive factors. */
  lemma PositiveFactors(a: nat, b: nat, k: nat)
    requires k < a * b
    ensures a > 0 && b > 0
  {
  }

  /** Block i of n blocks of width d ends within the n * d positions. */
  lemma BlockBounds(i: nat, n: nat, d: nat)
    requires i < n
    ensures (i + 1) * d == i * d + d <= n * d && i * d + d <= d * n
  {
    MulMono(i + 1, n, d);
  }

  /** Position c of a row cut into blocks of width d is offset k = c % d of
      block i = c / d, and (i, k) is the only pair with c == i * d + k. */
  lemma DivModUnique(c: nat, i: nat, k: nat, d: nat)
    requires k < d && (c == i * d + k || (i == c / d && k == c % d))
    ensures c == i * d + k && c / d == i && c % d == k
  {
    if c == i * d + k {
      var q, r := c / d, c % d;
      assert d * q + r == d * i + k;
      if q > i {
        MulMono(i + 1, q, d);
        assert false;
      } else if q < i {
        MulMono(q + 1, i, d);
        assert false;
      }
    }
  }

  /** Position c of n blocks of width d is offset k of block i. */
  lemma BlockOf(c: nat, n: nat, d: nat) returns (i: nat, k: nat)
    requires c < n * d
    ensures i < n && k < d && c == i * d + k
  {
    i, k := c / d, c % d;
    DivModUnique(c, i, k, d);
    if i >= n {
      MulMono(n, i, d);
    }
  }
}
