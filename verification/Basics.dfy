/** Small value types and facts shared by the other modules. */
module Basics {

  datatype Option<+T> = None | Some(value: T)

  /** 2 to the power n. */
  function Pow2(n: nat): (r: nat)
    ensures r >= 1
  {
    if n == 0 then 1 else 2 * Pow2(n - 1)
  }

  /** 2 to the power 32, the number of values of a machine word. */
  const WORD := 0x1_0000_0000

  const PAGE_SIZE := 4096

  /** A virtual page number. */
  type Vpn = nat

  // ------------------------------------------------------------------- lists

  ghost predicate NoDup(l: seq<nat>) { forall i, j :: 0 <= i < j < |l| ==> l[i] != l[j] }

  /** list_remove: the list without the first x. */
  function Without(l: seq<nat>, x: nat): seq<nat> {
    if l == [] then [] else if l[0] == x then l[1..] else [l[0]] + Without(l[1..], x)
  }

  lemma {:induction false} WithoutIs(l: seq<nat>, x: nat)
    requires NoDup(l)
    ensures NoDup(Without(l, x))
    ensures forall y :: y in Without(l, x) <==> y in l && y != x
    ensures x in l ==> |Without(l, x)| == |l| - 1
  {
    if l != [] {
      assert l == [l[0]] + l[1..];
      assert l[0] !in l[1..];
      WithoutIs(l[1..], x);
    }
  }

  // -------------------------------------------------------------- arithmetic

  lemma Times(q: nat, u: nat)
    ensures (q + 1) * u == q * u + u && (q - 1) * u == q * u - u
  {
  }

  lemma {:induction false} MulLess(i: nat, j: nat, u: nat)
    requires i < j
    ensures i * u + u <= j * u
    decreases j
  {
    Times(j - 1, u);
    if i < j - 1 { MulLess(i, j - 1, u); }
  }
}
