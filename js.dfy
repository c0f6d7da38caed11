/**
 * The few JavaScript built-ins the app's logic relies on, over exact reals:
 * Math.min, Math.max, Math.round(x * 10) / 10 and the end index of
 * Array.prototype.slice(0, end).
 */
module Js {

  /** Math.min(a, b) (no NaN: the model has exact reals). */
  function Min(a: real, b: real): (m: real)
    ensures m <= a && m <= b
    ensures m == a || m == b
  {
    if a <= b then a else b
  }

  /** Math.max(a, b). */
  function Max(a: real, b: real): (m: real)
    ensures a <= m && b <= m
    ensures m == a || m == b
  {
    if a <= b then b else a
  }

  lemma FloorBounds(y: real)
    ensures y.Floor as real <= y < y.Floor as real + 1.0
  {
  }

  /** The floor of y is the one integer k with k <= y < k + 1. */
  lemma FloorUnique(y: real, k: int)
    requires k as real <= y < k as real + 1.0
    ensures y.Floor == k
  {
    FloorBounds(y);
  }

  /** Math.round(x * 10) / 10: Math.round is floor(y + 1/2), so halves round up. */
  function Round1(x: real): (r: real)
    ensures x - 0.05 < r <= x + 0.05
  {
    FloorBounds(10.0 * x + 0.5);
    ((10.0 * x + 0.5).Floor as real) / 10.0
  }

  /** x has at most one decimal place. */
  predicate IsTenths(x: real) {
    (10.0 * x).Floor as real == 10.0 * x
  }

  lemma Round1IsTenths(x: real)
    ensures IsTenths(Round1(x))
  {
    var k := (10.0 * x + 0.5).Floor;
    assert 10.0 * Round1(x) == k as real;
    FloorUnique(k as real, k);
  }

  /** Rounding leaves a number that already has one decimal place alone. */
  lemma Round1OfTenths(x: real)
    requires IsTenths(x)
    ensures Round1(x) == x
  {
    var k := (10.0 * x).Floor;
    FloorUnique(10.0 * x + 0.5, k);
  }

  lemma Round1Monotone(x: real, y: real)
    requires x <= y
    ensures Round1(x) <= Round1(y)
  {
    var kx := (10.0 * x + 0.5).Floor;
    var ky := (10.0 * y + 0.5).Floor;
    FloorBounds(10.0 * x + 0.5);
    FloorBounds(10.0 * y + 0.5);
    assert kx as real < ky as real + 1.0;
    assert kx <= ky;
  }

  /** Rounding cannot leave an interval whose ends have one decimal place. */
  lemma Round1Within(x: real, lo: real, hi: real)
    requires IsTenths(lo) && IsTenths(hi)
    requires lo <= x <= hi
    ensures lo <= Round1(x) <= hi
  {
    Round1Monotone(lo, x);
    Round1Monotone(x, hi);
    Round1OfTenths(lo);
    Round1OfTenths(hi);
  }

  /** Rounding commutes with adding a tenth. */
  lemma Round1AddTenth(x: real)
    ensures Round1(x + 0.1) == Round1(x) + 0.1
  {
    var k := (10.0 * x + 0.5).Floor;
    FloorBounds(10.0 * x + 0.5);
    FloorUnique(10.0 * (x + 0.1) + 0.5, k + 1);
  }

  /** Two numbers at most 0.05 apart round at most one tenth apart. */
  lemma Round1Close(x: real, y: real)
    requires x - 0.05 <= y <= x + 0.05
    ensures Round1(x) - 0.1 <= Round1(y) <= Round1(x) + 0.1
  {
    Round1Monotone(y, x + 0.1);
    Round1Monotone(x - 0.1, y);
    Round1AddTenth(x);
    Round1AddTenth(x - 0.1);
  }

  /**
   * The index at which `xs.slice(0, end)` stops, for an array of length `len`:
   * a negative end counts from the back, and the end never passes the length.
   */
  function SliceEnd(len: nat, end: int): (e: nat)
    ensures e <= len
    ensures 0 <= end ==> (e == end || (e == len && len < end))
    ensures end < 0 ==> (e == len + end || (e == 0 && len + end < 0))
  {
    if end < 0 then (if len + end < 0 then 0 else len + end)
    else if end < len then end else len
  }
}
