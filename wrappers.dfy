/** The optional value a pull returns, and the few sequence shapes the lemmas talk about. */
module Wrappers {

  datatype Option<T> = None | Some(value: T)

  /** `n` copies of `x`. */
  function Repeat<X>(x: X, n: nat): (r: seq<X>)
    ensures |r| == n
  {
    if n == 0 then [] else [x] + Repeat(x, n - 1)
  }

  /** Every element of `s`, each wrapped in `Some`. */
  function Somes<X>(s: seq<X>): (r: seq<Option<X>>)
    ensures |r| == |s|
  {
    if s == [] then [] else [Some(s[0])] + Somes(s[1..])
  }

  /** The elements of `s` in the opposite order. */
  function Reverse<X>(s: seq<X>): (r: seq<X>)
    ensures |r| == |s|
  {
    if s == [] then [] else Reverse(s[1..]) + [s[0]]
  }

  /** Reversing a sequence with one more element at its end puts that element first. */
  lemma {:induction false} ReverseSnoc<X>(s: seq<X>, x: X)
    ensures Reverse(s + [x]) == [x] + Reverse(s)
  {
    if s == [] {
      assert [x][1..] == [];
    } else {
      assert (s + [x])[0] == s[0];
      assert (s + [x])[1..] == s[1..] + [x];
      ReverseSnoc(s[1..], x);
    }
  }
}
