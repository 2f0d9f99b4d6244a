/**
 * The iterator a progress adapter wraps: a finite, double-ended, exact-size
 * source. It is a sequence of items with a front and a back cursor; what is
 * left to pull is `items[front..back]`.
 */
module Iter {
  import opened Wrappers

  /** Which end of the source a pull takes from: `next` or `next_back`. */
  datatype End = Front | Back

  datatype Source<T> = Source(items: seq<T>, front: nat, back: nat) {

    predicate Valid() {
      front <= back <= |items|
    }

    /** The elements still to be pulled, front first. */
    function Remaining(): (r: seq<T>)
      requires Valid()
    {
      items[front..back]
    }

    /** `Iterator::next`: the first remaining element, or `None` when nothing is left. */
    function Next(): (r: (Option<T>, Source<T>))
      requires Valid()
      ensures r.1.Valid() && r.1.items == items
      ensures Remaining() == [] ==> r == (None, this)
      ensures Remaining() != [] ==> r.0 == Some(Remaining()[0]) && r.1.Remaining() == Remaining()[1..]
    {
      if front < back then (Some(items[front]), this.(front := front + 1)) else (None, this)
    }

    /** `DoubleEndedIterator::next_back`: the last remaining element, or `None` when nothing is left. */
    function NextBack(): (r: (Option<T>, Source<T>))
      requires Valid()
      ensures r.1.Valid() && r.1.items == items
      ensures Remaining() == [] ==> r == (None, this)
      ensures Remaining() != [] ==>
                r.0 == Some(Remaining()[|Remaining()| - 1]) &&
                r.1.Remaining() == Remaining()[..|Remaining()| - 1]
    {
      if front < back then (Some(items[back - 1]), this.(back := back - 1)) else (None, this)
    }

    /** One pull from the given end. */
    function Pull(e: End): (r: (Option<T>, Source<T>))
      requires Valid()
      ensures r.1.Valid() && r.1.items == items
    {
      match e
      case Front => Next()
      case Back => NextBack()
    }

    /** `ExactSizeIterator::len`: how many elements remain. */
    function Len(): (n: nat)
      requires Valid()
      ensures n == |Remaining()|
    {
      back - front
    }

    /**
     * `Iterator::size_hint`: a lower and an upper bound on what remains.
     * For this exact-size source both bounds are the remaining length.
     */
    function SizeHint(): (r: (nat, Option<nat>))
      requires Valid()
      ensures r.0 == |Remaining()| && r.1 == Some(|Remaining()|)
    {
      (back - front, Some(back - front))
    }
  }

  /** What the bare source yields, and what is left of it, after the pulls `ends`, made in order. */
  function Bare<T>(src: Source<T>, ends: seq<End>): (r: (seq<Option<T>>, Source<T>))
    requires src.Valid()
    ensures |r.0| == |ends|
    ensures r.1.Valid() && r.1.items == src.items
    decreases |ends|
  {
    if ends == [] then ([], src)
    else
      var first := src.Pull(ends[0]);
      var rest := Bare(first.1, ends[1..]);
      ([first.0] + rest.0, rest.1)
  }

  /** A nonempty run of pulls is its first pull followed by the rest. */
  lemma BareUnfold<T>(src: Source<T>, ends: seq<End>)
    requires src.Valid() && ends != []
    ensures Bare(src, ends).0 == [src.Pull(ends[0]).0] + Bare(src.Pull(ends[0]).1, ends[1..]).0
    ensures Bare(src, ends).1 == Bare(src.Pull(ends[0]).1, ends[1..]).1
  {
  }

  /** One more pull after `ends` is one more step from where `ends` left the source. */
  lemma {:induction false} BareSnoc<T>(src: Source<T>, ends: seq<End>, e: End)
    requires src.Valid()
    ensures Bare(src, ends + [e]).0 == Bare(src, ends).0 + [Bare(src, ends).1.Pull(e).0]
    ensures Bare(src, ends + [e]).1 == Bare(src, ends).1.Pull(e).1
    decreases |ends|
  {
    if ends == [] {
      assert [e][1..] == [];
      BareUnfold(src, [e]);
    } else {
      var s1 := src.Pull(ends[0]).1;
      assert (ends + [e])[0] == ends[0];
      assert (ends + [e])[1..] == ends[1..] + [e];
      BareUnfold(src, ends + [e]);
      BareUnfold(src, ends);
      BareSnoc(s1, ends[1..], e);
    }
  }

  /** Pulling an exhausted source, from either end, yields only `None` and leaves it as it was. */
  lemma {:induction false} BareExhausted<T>(src: Source<T>, ends: seq<End>)
    requires src.Valid() && src.Remaining() == []
    ensures Bare(src, ends) == (Repeat<Option<T>>(None, |ends|), src)
    decreases |ends|
  {
    if ends != [] {
      BareExhausted(src, ends[1..]);
      assert Repeat<Option<T>>(None, |ends|) == [None] + Repeat<Option<T>>(None, |ends| - 1);
    }
  }

  /**
   * The i-th pull yields an element exactly when fewer than i pulls came before it
   * than there were elements, whichever ends the pulls take from; the source
   * shrinks by one per successful pull.
   */
  lemma {:induction false} BareYieldsUntilExhausted<T>(src: Source<T>, ends: seq<End>)
    requires src.Valid()
    ensures forall i :: 0 <= i < |ends| ==> (Bare(src, ends).0[i].Some? <==> i < |src.Remaining()|)
    ensures |Bare(src, ends).1.Remaining()| ==
              if |ends| <= |src.Remaining()| then |src.Remaining()| - |ends| else 0
    decreases |ends|
  {
    if ends != [] {
      var s1 := src.Pull(ends[0]).1;
      BareYieldsUntilExhausted(s1, ends[1..]);
      if src.Remaining() == [] {
        assert s1 == src;
      } else {
        assert |s1.Remaining()| == |src.Remaining()| - 1;
      }
    }
  }

  /** The elements that the pulls from end `e` yielded, in the order they were pulled. */
  function Taken<T>(ends: seq<End>, outs: seq<Option<T>>, e: End): (r: seq<T>)
    requires |ends| == |outs|
    ensures |r| <= |ends|
    decreases |ends|
  {
    if ends == [] then []
    else Took(ends[0], outs[0], e) + Taken(ends[1..], outs[1..], e)
  }

  /**
   * Any interleaving of front and back pulls splits what remained into what the
   * front pulls took (in order), what is left, and what the back pulls took
   * (in reverse order): nothing is lost, duplicated or reordered.
   */
  lemma {:induction false} BareSplitsRemaining<T>(src: Source<T>, ends: seq<End>)
    requires src.Valid()
    ensures src.Remaining() ==
              Taken(ends, Bare(src, ends).0, Front) + Bare(src, ends).1.Remaining()
              + Reverse(Taken(ends, Bare(src, ends).0, Back))
    decreases |ends|
  {
    if ends != [] {
      var o, s1 := src.Pull(ends[0]).0, src.Pull(ends[0]).1;
      var os := Bare(s1, ends[1..]).0;
      BareUnfold(src, ends);
      BareSplitsRemaining(s1, ends[1..]);
      TakenUnfold(ends, [o] + os, Front);
      TakenUnfold(ends, [o] + os, Back);
      SplitStep(src, ends[0], Taken(ends[1..], os, Front), Bare(s1, ends[1..]).1.Remaining(), Taken(ends[1..], os, Back));
    }
  }

  /** A nonempty history of pulls contributes its first pull, then the rest. */
  lemma TakenUnfold<T>(ends: seq<End>, outs: seq<Option<T>>, e: End)
    requires |ends| == |outs| && ends != []
    ensures Taken(ends, outs, e) == Took(ends[0], outs[0], e) + Taken(ends[1..], outs[1..], e)
  {
  }

  /** What a single pull from `pulled` that yielded `o` contributes to the elements taken from end `e`. */
  function Took<T>(pulled: End, o: Option<T>, e: End): (r: seq<T>)
    ensures |r| <= 1
  {
    if pulled == e && o.Some? then [o.value] else []
  }

  /** One pull moves its element, if any, from the remaining elements to the side it was pulled from. */
  lemma SplitStep<T>(src: Source<T>, e: End, f1: seq<T>, rest: seq<T>, b1: seq<T>)
    requires src.Valid()
    requires src.Pull(e).1.Remaining() == f1 + rest + Reverse(b1)
    ensures src.Remaining() ==
              Took(e, src.Pull(e).0, Front) + f1 + rest + Reverse(Took(e, src.Pull(e).0, Back) + b1)
  {
    var p := src.Pull(e);
    var rem, rem1 := src.Remaining(), p.1.Remaining();
    if rem == [] {
      assert p == (None, src);
      assert Took(e, p.0, Front) == [] && Took(e, p.0, Back) == [];
      SplitShapes(rem[0..0], f1, rest, b1);
    } else if e == Front {
      var x := rem[0];
      assert p == src.Next() && p.0 == Some(x) && rem1 == rem[1..];
      assert rem == [x] + rem1;
      assert Took(e, p.0, Front) == [x] && Took(e, p.0, Back) == [];
      SplitShapes([x], f1, rest, b1);
    } else {
      var x := rem[|rem| - 1];
      assert p == src.NextBack() && p.0 == Some(x) && rem1 == rem[..|rem| - 1];
      assert rem == rem1 + [x];
      assert Took(e, p.0, Front) == [] && Took(e, p.0, Back) == [x];
      SplitShapes([x], f1, rest, b1);
    }
  }

  /** The three shapes a pull leaves the split in, as plain sequence identities. */
  lemma SplitShapes<T>(xs: seq<T>, f1: seq<T>, rest: seq<T>, b1: seq<T>)
    ensures xs == [] ==> f1 + rest + Reverse(b1) == [] + f1 + rest + Reverse([] + b1)
    ensures |xs| == 1 ==> xs + (f1 + rest + Reverse(b1)) == xs + f1 + rest + Reverse([] + b1)
    ensures |xs| == 1 ==> (f1 + rest + Reverse(b1)) + xs == [] + f1 + rest + Reverse(xs + b1)
  {
    assert [] + b1 == b1;
    assert [] + f1 == f1;
    if |xs| == 1 {
      ReverseCons(xs[0], b1);
      assert xs == [xs[0]];
    }
  }

  /** Reversing a sequence with one more element at its front puts that element last. */
  lemma ReverseCons<X>(x: X, s: seq<X>)
    ensures Reverse([x] + s) == Reverse(s) + [x]
  {
    assert ([x] + s)[1..] == s;
  }

  /** Prepending one element to a drained run. */
  lemma DrainStep<T>(x: T, s: seq<T>, k: nat)
    ensures [Some(x)] + (Somes(s) + Repeat<Option<T>>(None, k)) == Somes([x] + s) + Repeat<Option<T>>(None, k)
  {
    assert ([x] + s)[0] == x && ([x] + s)[1..] == s;
  }

  /**
   * Pulling from the front until `k` pulls past exhaustion yields every
   * remaining element in order, then `k` times `None`.
   */
  lemma {:induction false} BareDrainForward<T>(src: Source<T>, k: nat)
    requires src.Valid()
    ensures Bare(src, Repeat(Front, |src.Remaining()| + k)).0 == Somes(src.Remaining()) + Repeat<Option<T>>(None, k)
    ensures Bare(src, Repeat(Front, |src.Remaining()| + k)).1.Remaining() == []
    decreases |src.Remaining()|
  {
    var rem := src.Remaining();
    var ends := Repeat(Front, |rem| + k);
    if rem == [] {
      assert ends == Repeat(Front, k);
      BareExhausted(src, ends);
      assert Somes(rem) == [];
    } else {
      var p := src.Next();
      var rem1 := p.1.Remaining();
      assert p.0 == Some(rem[0]) && rem == [rem[0]] + rem1;
      var ends1 := Repeat(Front, |rem1| + k);
      assert ends[0] == Front && ends[1..] == ends1;
      BareUnfold(src, ends);
      BareDrainForward(p.1, k);
      DrainStep(rem[0], rem1, k);
    }
  }

  /**
   * Pulling from the back until `k` pulls past exhaustion yields every
   * remaining element in reverse order, then `k` times `None`.
   */
  lemma {:induction false} BareDrainBackward<T>(src: Source<T>, k: nat)
    requires src.Valid()
    ensures Bare(src, Repeat(Back, |src.Remaining()| + k)).0 == Somes(Reverse(src.Remaining())) + Repeat<Option<T>>(None, k)
    ensures Bare(src, Repeat(Back, |src.Remaining()| + k)).1.Remaining() == []
    decreases |src.Remaining()|
  {
    var rem := src.Remaining();
    var ends := Repeat(Back, |rem| + k);
    if rem == [] {
      assert ends == Repeat(Back, k);
      BareExhausted(src, ends);
      assert Somes(Reverse(rem)) == [];
    } else {
      var p := src.NextBack();
      var rem1, x := p.1.Remaining(), rem[|rem| - 1];
      assert p.0 == Some(x) && rem == rem1 + [x];
      var ends1 := Repeat(Back, |rem1| + k);
      assert ends[0] == Back && ends[1..] == ends1;
      BareUnfold(src, ends);
      BareDrainBackward(p.1, k);
      ReverseSnoc(rem1, x);
      DrainStep(x, Reverse(rem1), k);
    }
  }
}
