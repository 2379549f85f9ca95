/** Element-wise maps over sequences: Go's `for _, x := range xs { out = append(out, f(x)) }`. */
module Seqs {
  function Map<A, B>(f: A -> B, xs: seq<A>): (r: seq<B>)
    ensures |r| == |xs|
    ensures forall i :: 0 <= i < |xs| ==> r[i] == f(xs[i])
  {
    seq(|xs|, i requires 0 <= i < |xs| => f(xs[i]))
  }

  lemma MapSnoc<A, B>(f: A -> B, xs: seq<A>, x: A)
    ensures Map(f, xs + [x]) == Map(f, xs) + [f(x)]
  {
    var a, b := Map(f, xs + [x]), Map(f, xs) + [f(x)];
    forall k | 0 <= k < |a| ensures a[k] == b[k] {
      assert a[k] == f((xs + [x])[k]);
    }
  }

  lemma MapCons<A, B>(f: A -> B, xs: seq<A>)
    requires xs != []
    ensures Map(f, xs) == [f(xs[0])] + Map(f, xs[1..])
  {
    var a, b := Map(f, xs), [f(xs[0])] + Map(f, xs[1..]);
    forall k | 0 <= k < |a| ensures a[k] == b[k] {
      if k > 0 {
        assert b[k] == Map(f, xs[1..])[k - 1];
      }
    }
  }

  lemma MapConcat<A, B>(f: A -> B, xs: seq<A>, ys: seq<A>)
    ensures Map(f, xs + ys) == Map(f, xs) + Map(f, ys)
  {
    var a, b := Map(f, xs + ys), Map(f, xs) + Map(f, ys);
    forall k | 0 <= k < |a| ensures a[k] == b[k] {
      if k < |xs| {
        assert a[k] == f((xs + ys)[k]);
      } else {
        assert a[k] == f((xs + ys)[k]) && (xs + ys)[k] == ys[k - |xs|];
      }
    }
  }

  lemma AppendAssoc<T>(a: seq<T>, b: seq<T>, c: seq<T>)
    ensures a + b + c == a + (b + c)
  {
  }
}
