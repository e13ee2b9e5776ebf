/** Small shared vocabulary: an optional value, and sums over sequences.

    Every aggregate the storefront shows or sends (cart total, badge count,
    customization cost, modal price) is written in the source as an
    `Array.prototype.reduce` from 0, i.e. a left fold. `Fold` models that
    fold as written; `Sum` is the plain right-recursive reference sum that
    the rest of the model reasons with. */
module Common {

  datatype Option<+T> = None | Some(value: T)
  {
    /** `x || []`-style defaulting: the value when present, else the default. */
    function GetOr(default: T): T
    {
      match this
      case Some(v) => v
      case None => default
    }
  }

  /** Reference sum of `f` over `s`. */
  function Sum<T>(s: seq<T>, f: T -> int): int
  {
    if s == [] then 0 else f(s[0]) + Sum(s[1..], f)
  }

  /** `s.reduce((acc, x) => acc + f(x), acc)`: the left fold the source writes. */
  function Fold<T>(acc: int, s: seq<T>, f: T -> int): (r: int)
    ensures r == acc + Sum(s, f)
    decreases s
  {
    if s == [] then acc else Fold(acc + f(s[0]), s[1..], f)
  }

  lemma {:induction false} SumConcat<T>(a: seq<T>, b: seq<T>, f: T -> int)
    ensures Sum(a + b, f) == Sum(a, f) + Sum(b, f)
  {
    if a == [] {
      assert a + b == b;
    } else {
      assert (a + b)[1..] == a[1..] + b;
      SumConcat(a[1..], b, f);
    }
  }

  /** Replacing one element changes the sum by exactly the difference. */
  lemma {:induction false} SumUpdate<T>(s: seq<T>, i: nat, x: T, f: T -> int)
    requires i < |s|
    ensures Sum(s[i := x], f) == Sum(s, f) - f(s[i]) + f(x)
  {
    var pre, post := s[..i], s[i+1..];
    assert s == (pre + [s[i]]) + post;
    assert s[i := x] == (pre + [x]) + post;
    SumConcat(pre + [s[i]], post, f);
    SumConcat(pre, [s[i]], f);
    SumConcat(pre + [x], post, f);
    SumConcat(pre, [x], f);
  }

  /** Dropping one element lowers the sum by exactly that element's share. */
  lemma {:induction false} SumRemove<T>(s: seq<T>, i: nat, f: T -> int)
    requires i < |s|
    ensures Sum(s[..i] + s[i+1..], f) == Sum(s, f) - f(s[i])
  {
    var pre, post := s[..i], s[i+1..];
    assert s == (pre + [s[i]]) + post;
    SumConcat(pre + [s[i]], post, f);
    SumConcat(pre, [s[i]], f);
    SumConcat(pre, post, f);
  }
}
