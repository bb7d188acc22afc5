/** Arithmetic of round-robin selection: successive counter values taken
    modulo the pool size. */
module Rotation {

  /** The slots drawn by `k` successive same-class requests when the class
      counter stands at `n`: the j-th of them draws counter n + j + 1. */
  function Window(n: nat, k: nat, size: nat): (w: seq<nat>)
    requires size >= 1
    ensures |w| == k
    ensures forall j :: 0 <= j < k ==> w[j] < size
  {
    seq(k, j requires 0 <= j < k => (n + j + 1) % size)
  }

  /** `d` draws followed by the next `k` draws are `d + k` draws. */
  lemma WindowConcat(n: nat, d: nat, k: nat, size: nat)
    requires size >= 1
    ensures Window(n, d, size) + Window(n + d, k, size) == Window(n, d + k, size)
  {
    var l, r := Window(n, d, size) + Window(n + d, k, size), Window(n, d + k, size);
    forall j | 0 <= j < d + k
      ensures l[j] == r[j]
    {
      if j >= d {
        assert l[j] == Window(n + d, k, size)[j - d];
      }
    }
  }

  /** A stretch of a window is the window of the draws it covers. */
  lemma WindowSlice(n: nat, k: nat, size: nat, o: nat)
    requires size >= 1 && o + size <= k
    ensures Window(n, k, size)[o..o + size] == Window(n + o, size, size)
  {
    var w, v := Window(n, k, size), Window(n + o, size, size);
    forall j | 0 <= j < size
      ensures w[o..o + size][j] == v[j]
    {
      assert w[o + j] == (n + (o + j) + 1) % size;
    }
  }

  /** Starting from a zero counter, the k-th draw (k >= 1) is k mod size. */
  lemma WindowFromZero(k: nat, size: nat)
    requires size >= 1
    ensures forall j :: 1 <= j <= k ==> Window(0, k, size)[j - 1] == j % size
  {
  }

  /** `w` lists every slot of a pool of `size` exactly once. */
  ghost predicate VisitsEachOnce(w: seq<nat>, size: nat)
  {
    && |w| == size
    && (forall i :: 0 <= i < |w| ==> w[i] < size)
    && (forall s :: 0 <= s < size ==> s in w)
    && (forall i, j :: 0 <= i < j < |w| ==> w[i] != w[j])
  }

  /** Adding whole multiples of the modulus leaves the residue alone. */
  lemma ResidueOfShift(q: nat, size: nat, s: nat)
    requires s < size
    ensures (q * size + s) % size == s
  {
    var m := q * size + s;
    var qm := m / size;
    assert m == qm * size + m % size;
    assert (q - qm) * size == m % size - s;
    if q - qm >= 1 {
      MulAtLeast(q - qm, size);
    } else if q - qm <= -1 {
      MulAtLeast(qm - q, size);
    }
  }

  lemma MulAtLeast(d: int, size: nat)
    requires d >= 1
    ensures d * size >= size
  {
  }

  /** Two values less than a modulus apart have different residues. */
  lemma {:induction false} NearValuesDiffer(a: nat, b: nat, size: nat)
    requires a < b < a + size
    ensures a % size != b % size
  {
    var q, r := a / size, a % size;
    assert a == q * size + r;
    var d := b - a;
    if r + d < size {
      ResidueOfShift(q, size, r + d);
    } else {
      assert b == (q + 1) * size + (r + d - size);
      ResidueOfShift(q + 1, size, r + d - size);
    }
  }

  /** Any `size` consecutive counter values hit every slot exactly once. */
  lemma WindowVisitsEachOnce(n: nat, size: nat)
    requires size >= 1
    ensures VisitsEachOnce(Window(n, size, size), size)
  {
    var w := Window(n, size, size);
    forall i, j | 0 <= i < j < size
      ensures w[i] != w[j]
    {
      NearValuesDiffer(n + i + 1, n + j + 1, size);
    }
    forall s | 0 <= s < size
      ensures s in w
    {
      var q, m := (n + 1) / size, (n + 1) % size;
      assert n + 1 == q * size + m;
      if s >= m {
        var j := s - m;
        ResidueOfShift(q, size, s);
        assert w[j] == s;
      } else {
        var j := size - m + s;
        assert n + j + 1 == (q + 1) * size + s;
        ResidueOfShift(q + 1, size, s);
        assert w[j] == s;
      }
    }
  }

  /** Any `size` consecutive draws of a longer window hit every slot exactly once. */
  lemma StretchVisitsEachOnce(n: nat, k: nat, size: nat, o: nat)
    requires size >= 1 && o + size <= k
    ensures VisitsEachOnce(Window(n, k, size)[o..o + size], size)
  {
    WindowSlice(n, k, size, o);
    WindowVisitsEachOnce(n + o, size);
  }
}
