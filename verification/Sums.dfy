/** Finite sums of reals, as the numerical kernels use them. */
module Sums {

  function Sum(lo: int, hi: int, f: int -> real): real
    decreases hi - lo
  {
    if lo >= hi then 0.0 else Sum(lo, hi - 1, f) + f(hi - 1)
  }

  lemma {:induction false} SumSame(lo: int, hi: int, f: int -> real, g: int -> real)
    requires forall i :: lo <= i < hi ==> f(i) == g(i)
    ensures Sum(lo, hi, f) == Sum(lo, hi, g)
    decreases hi - lo
  {
    if lo < hi { SumSame(lo, hi - 1, f, g); }
  }

  lemma {:induction false} SumZero(lo: int, hi: int, f: int -> real)
    requires forall i :: lo <= i < hi ==> f(i) == 0.0
    ensures Sum(lo, hi, f) == 0.0
    decreases hi - lo
  {
    if lo < hi { SumZero(lo, hi - 1, f); }
  }

  lemma {:induction false} SumSplit(lo: int, mid: int, hi: int, f: int -> real)
    requires lo <= mid <= hi
    ensures Sum(lo, hi, f) == Sum(lo, mid, f) + Sum(mid, hi, f)
    decreases hi - mid
  {
    if mid < hi { SumSplit(lo, mid, hi - 1, f); }
  }

  lemma {:induction false} SumPlus(lo: int, hi: int, f: int -> real, g: int -> real, h: int -> real)
    requires forall i :: lo <= i < hi ==> h(i) == f(i) + g(i)
    ensures Sum(lo, hi, h) == Sum(lo, hi, f) + Sum(lo, hi, g)
    decreases hi - lo
  {
    if lo < hi { SumPlus(lo, hi - 1, f, g, h); }
  }

  lemma {:induction false} SumScale(lo: int, hi: int, c: real, f: int -> real, g: int -> real)
    requires forall i :: lo <= i < hi ==> g(i) == c * f(i)
    ensures Sum(lo, hi, g) == c * Sum(lo, hi, f)
    decreases hi - lo
  {
    if lo < hi { SumScale(lo, hi - 1, c, f, g); }
  }

  lemma {:induction false} SumAtMost(lo: int, hi: int, f: int -> real, g: int -> real)
    requires forall i :: lo <= i < hi ==> f(i) <= g(i)
    ensures Sum(lo, hi, f) <= Sum(lo, hi, g)
    decreases hi - lo
  {
    if lo < hi { SumAtMost(lo, hi - 1, f, g); }
  }

  lemma SumNonNegative(lo: int, hi: int, f: int -> real)
    requires forall i :: lo <= i < hi ==> f(i) >= 0.0
    ensures Sum(lo, hi, f) >= 0.0
  {
    SumZero(lo, hi, _ => 0.0);
    SumAtMost(lo, hi, _ => 0.0, f);
  }

  /** Two summands that differ at one index only. */
  lemma {:induction false} SumChangeOne(lo: int, hi: int, at: int, f: int -> real, g: int -> real)
    requires lo <= at < hi
    requires forall i :: lo <= i < hi && i != at ==> f(i) == g(i)
    ensures Sum(lo, hi, g) == Sum(lo, hi, f) - f(at) + g(at)
    decreases hi - lo
  {
    if at == hi - 1 { SumSame(lo, hi - 1, f, g); } else { SumChangeOne(lo, hi - 1, at, f, g); }
  }

  function Abs(x: real): real { if x < 0.0 then -x else x }

  lemma {:induction false} SumAbs(lo: int, hi: int, f: int -> real, g: int -> real)
    requires forall i :: lo <= i < hi ==> Abs(f(i)) <= g(i)
    ensures Abs(Sum(lo, hi, f)) <= Sum(lo, hi, g)
    decreases hi - lo
  {
    if lo < hi { SumAbs(lo, hi - 1, f, g); }
  }

  lemma {:induction false} SumShift(lo: int, hi: int, shift: int, f: int -> real, g: int -> real)
    requires forall i :: lo <= i < hi ==> g(i) == f(i + shift)
    ensures Sum(lo, hi, g) == Sum(lo + shift, hi + shift, f)
    decreases hi - lo
  {
    if lo < hi { SumShift(lo, hi - 1, shift, f, g); }
  }
}
