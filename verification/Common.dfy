/** Small vocabulary shared by the other modules. */
module Common {

  datatype Option<+T> = None | Some(value: T) {
    function GetOr(default: T): T {
      match this
      case Some(v) => v
      case None => default
    }
  }

  function Min(a: real, b: real): real { if a <= b then a else b }

  function Max(a: real, b: real): real { if a >= b then a else b }

  /** Multiplying by something positive keeps the order. */
  lemma Scale(a: real, b: real, k: real)
    requires k > 0.0
    ensures a <= b <==> k * a <= k * b
    ensures a < b <==> k * a < k * b
  {
  }

  /** A bound on a quotient is a bound on what is divided. */
  lemma QuotientBound(a: real, b: real, bound: real)
    requires b > 0.0
    ensures b * bound <= a <==> bound <= a / b
  {
    Scale(bound, a / b, b);
    Undivided(a, b);
  }

  lemma Undivided(a: real, b: real)
    requires b > 0.0
    ensures b * (a / b) == a
  {
  }

  lemma SubsetIsSmaller<T>(small: set<T>, big: set<T>)
    requires small <= big
    ensures |small| <= |big|
  {
    assert big == small + (big - small);
  }

  /** All pieces of a stream, glued together in order. */
  function Flatten<T>(pieces: seq<seq<T>>): seq<T> {
    if pieces == [] then [] else pieces[0] + Flatten(pieces[1..])
  }

  lemma {:induction false} FlattenAppend<T>(left: seq<seq<T>>, right: seq<seq<T>>)
    ensures Flatten(left + right) == Flatten(left) + Flatten(right)
  {
    if left == [] {
      assert left + right == right;
    } else {
      FlattenAppend(left[1..], right);
      assert (left + right)[1..] == left[1..] + right;
      ConcatAssociates(left[0], Flatten(left[1..]), Flatten(right));
    }
  }

  lemma ConcatAssociates<T>(a: seq<T>, b: seq<T>, c: seq<T>)
    ensures a + (b + c) == (a + b) + c
  {
  }

  lemma FlattenSnoc<T>(pieces: seq<seq<T>>, last: seq<T>)
    ensures Flatten(pieces + [last]) == Flatten(pieces) + last
  {
    FlattenAppend(pieces, [last]);
    assert Flatten([last]) == last + Flatten([]);
  }

  /** The last n elements of s, or all of it when it is shorter. */
  function Suffix<T>(s: seq<T>, n: nat): seq<T> {
    if |s| <= n then s else s[|s| - n..]
  }

  /** The first n elements of s, or all of it when it is shorter. */
  function Prefix<T>(s: seq<T>, n: nat): seq<T> {
    if |s| <= n then s else s[..n]
  }

  /** Dropping what no longer fits early on never loses anything that would be kept later. */
  lemma SuffixAbsorbs<T>(a: seq<T>, b: seq<T>, n: nat)
    ensures Suffix(Suffix(a, n) + b, n) == Suffix(a + b, n)
  {
  }
}
