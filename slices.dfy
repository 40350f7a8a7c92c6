/** Python list idioms used by both bookkeeping components: the negative-start
    slice `s[-k:]`, the "append, then keep the newest `cap`" trim, and the list
    comprehension that filters. */
module Slices {

  function Min(a: int, b: int): int { if a <= b then a else b }

  /** The newest `cap` elements of `s` (all of `s` when it is shorter). */
  ghost function Last<T>(s: seq<T>, cap: nat): seq<T>
  {
    if |s| <= cap then s else s[|s| - cap..]
  }

  /** Python's `s[-limit:]` for an integer `limit`, normalising the start index
      the way CPython does: a negative start counts from the end and is clamped
      at 0, a start past the end is clamped at the length. Hence `limit == 0`
      gives the whole list and a negative `limit` drops the first `-limit`. */
  function Suffix<T>(s: seq<T>, limit: int): (r: seq<T>)
    ensures |r| <= |s| && r == s[|s| - |r|..]
    ensures limit > 0 ==> r == s[|s| - Min(limit, |s|)..] && |r| == Min(limit, |s|)
    ensures limit == 0 ==> r == s
    ensures limit < 0 ==> r == s[Min(-limit, |s|)..]
  {
    var start := -limit;
    var from :=
      if start < 0 then (if start + |s| < 0 then 0 else start + |s|)
      else if start > |s| then |s|
      else start;
    s[from..]
  }

  /** `xs.append(x); if len(xs) > cap: xs = xs[-cap:]`. */
  function Capped<T>(s: seq<T>, x: T, cap: nat): (r: seq<T>)
    ensures cap > 0 ==> r == Last(s + [x], cap)
    ensures cap > 0 ==> |r| <= cap && |r| > 0 && r[|r| - 1] == x
    ensures cap > 0 && |s| < cap ==> r == s + [x]
    ensures cap > 0 && |s| == cap ==> r == s[1..] + [x]
  {
    var t := s + [x];
    if |t| > cap then Suffix(t, cap) else t
  }

  /** Trimming after each append keeps exactly the newest `cap` of everything
      appended so far: eviction is oldest-first over the whole history. */
  lemma LastOfLast<T>(t: seq<T>, x: T, cap: nat)
    requires cap > 0
    ensures Capped(Last(t, cap), x, cap) == Last(t + [x], cap)
  {
    if |t| >= cap {
      var l := t[|t| - cap..];
      assert Last(t, cap) == l;
      assert (l + [x])[1..] == t[|t| - cap + 1..] + [x];
      assert (t + [x])[|t| + 1 - cap..] == t[|t| - cap + 1..] + [x];
    } else {
      assert Last(t, cap) == t;
    }
  }

  /** The list comprehension `[y for y in s if keep(y)]`. */
  function Filter<T>(s: seq<T>, keep: T -> bool): (r: seq<T>)
    ensures |r| <= |s|
    ensures forall i :: 0 <= i < |r| ==> r[i] in s && keep(r[i])
    ensures forall i :: 0 <= i < |s| && keep(s[i]) ==> s[i] in r
  {
    if s == [] then []
    else (if keep(s[0]) then [s[0]] else []) + Filter(s[1..], keep)
  }

  /** Filtering preserves stored order: filtering an extended list extends the
      filtered list by the new item exactly when it is kept. */
  lemma {:induction false} FilterAppend<T>(s: seq<T>, x: T, keep: T -> bool)
    ensures Filter(s + [x], keep) == Filter(s, keep) + (if keep(x) then [x] else [])
  {
    if s == [] {
      assert [x][1..] == [];
    } else {
      assert (s + [x])[1..] == s[1..] + [x];
      FilterAppend(s[1..], x, keep);
    }
  }
}
