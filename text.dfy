/** Splitting strings at a separator character. */
module Text {
  import opened Wrappers

  /**
   * Splits `s` at the first occurrence of `c` into the part before it and
   * the part after it; `None` when `c` does not occur.
   */
  function SplitAtFirst(s: string, c: char): (r: Option<(string, string)>)
    ensures r.None? <==> c !in s
    ensures r.Some? ==> c !in r.value.0 && s == r.value.0 + [c] + r.value.1
  {
    if |s| == 0 then None
    else if s[0] == c then Some(([], s[1..]))
    else match SplitAtFirst(s[1..], c)
      case None => None
      case Some(parts) => Some(([s[0]] + parts.0, parts.1))
  }

  /** Splitting `a + [c] + b` at `c` gives back `a` and `b` when `a` holds no `c`. */
  lemma {:induction false} SplitAtFirstOfJoin(a: string, c: char, b: string)
    requires c !in a
    ensures SplitAtFirst(a + [c] + b, c) == Some((a, b))
  {
    var s := a + [c] + b;
    if a == [] {
      assert s[0] == c && s[1..] == b;
    } else {
      assert s[0] == a[0] != c;
      assert s[1..] == a[1..] + [c] + b;
      SplitAtFirstOfJoin(a[1..], c, b);
      assert [a[0]] + a[1..] == a;
    }
  }
}
