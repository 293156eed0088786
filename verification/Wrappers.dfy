/** Small shared datatypes and numeric helpers. */
module Wrappers {

  datatype Option<+T> = None | Some(value: T) {
    function GetOr(default: T): T {
      match this
      case Some(v) => v
      case None => default
    }
  }

  function MaxReal(x: real, y: real): real {
    if x < y then y else x
  }

  function MinReal(x: real, y: real): real {
    if y < x then y else x
  }

  function MaxInt(x: int, y: int): int {
    if x < y then y else x
  }

  function MinInt(x: int, y: int): int {
    if y < x then y else x
  }

  /** Conversion of a float to an integer as the source language does it: towards zero. */
  function Trunc(x: real): int {
    if x >= 0.0 then x.Floor else -((-x).Floor)
  }

  /** The whole shares in a fraction of a holding. */
  function ShareOf(quantity: int, portion: real): int {
    Trunc(FractionOf(quantity, portion))
  }

  function FractionOf(quantity: int, portion: real): real {
    quantity as real * portion
  }

  /** The whole shares of x, one at least, and `most` at most. */
  predicate IsWholePart(q: int, x: real, most: int) {
    if x >= most as real then q == most
    else if x < 2.0 then q == 1
    else q as real <= x < (q + 1) as real
  }

  lemma WholePart(x: real, most: int)
    requires most >= 1
    ensures IsWholePart(MinInt(MaxInt(1, Trunc(x)), most), x, most)
  {
  }

  /** The value of a key, if it has one. */
  function Get<K(==), V>(m: map<K, V>, k: K): Option<V> {
    if k in m then Some(m[k]) else None
  }

  ghost predicate Distinct<T>(s: seq<T>) {
    forall i, j :: 0 <= i < j < |s| ==> s[i] != s[j]
  }

  function Elems<T(==)>(s: seq<T>): set<T> {
    set x | x in s
  }

  /** The n numbers after `from`. */
  function UptoSet(from: nat, n: nat): (r: set<nat>)
    ensures forall id :: id in r <==> from < id <= from + n
  {
    if n == 0 then {} else UptoSet(from, n - 1) + {from + n}
  }

  /** Those of them that are not gone, in order. */
  function UptoLeft(from: nat, n: nat, gone: set<nat>): (r: seq<nat>)
    ensures forall id :: id in r <==> from < id <= from + n && id !in gone
    ensures Distinct(r)
  {
    if n == 0 then []
    else if from + n in gone then UptoLeft(from, n - 1, gone)
    else UptoLeft(from, n - 1, gone) + [from + n]
  }

  lemma ProductNotNegative(a: real, b: real)
    requires a >= 0.0 && b >= 0.0
    ensures a * b >= 0.0
  {
  }

  lemma Distributed(a: real, b: real, c: real)
    ensures a * (b + c) == a * b + a * c
    ensures a * (b - c) == a * b - a * c
  {
  }

  lemma Reassociated(a: real, b: real, c: real)
    ensures (a * b) * c == a * (b * c)
  {
  }

  lemma SignOfProduct(x: real, k: real)
    requires k > 0.0
    ensures x * k > 0.0 <==> x > 0.0
  {
  }

  lemma MulMonotone(a: int, b: int, k: int)
    requires a <= b && k >= 0
    ensures a * k <= b * k && k * a <= k * b
  {
  }
}
