/** The Damerau-Levenshtein distance computed by the `pyxdameraulevenshtein`
    library: the optimal-string-alignment variant, which counts insertions,
    deletions, substitutions and transpositions of two adjacent characters,
    each at cost one, and never edits a substring twice. Stated as the
    recurrence over prefixes that the library's dynamic programme fills in. */
module EditDistance {

  function Min(x: nat, y: nat): nat {
    if x <= y then x else y
  }

  function Dist(a: string, b: string): nat
    decreases |a| + |b|
  {
    if |a| == 0 then |b|
    else if |b| == 0 then |a|
    else
      var i, j := |a| - 1, |b| - 1;
      var cost := if a[i] == b[j] then 0 else 1;
      var d := Min(Min(Dist(a[..i], b) + 1, Dist(a, b[..j]) + 1), Dist(a[..i], b[..j]) + cost);
      if i > 0 && j > 0 && a[i] == b[j - 1] && a[i - 1] == b[j]
      then Min(d, Dist(a[..i - 1], b[..j - 1]) + 1)
      else d
  }

  /** The distance is zero exactly between equal strings. */
  lemma {:induction false} DistZeroIffEqual(a: string, b: string)
    ensures Dist(a, b) == 0 <==> a == b
    decreases |a| + |b|
  {
    if |a| > 0 && |b| > 0 {
      var i, j := |a| - 1, |b| - 1;
      DistZeroIffEqual(a[..i], b[..j]);
      if a == b {
        assert a[..i] == b[..j];
      }
      if Dist(a, b) == 0 {
        assert a[..i] == b[..j] && a[i] == b[j];
        assert a == a[..i] + [a[i]] && b == b[..j] + [b[j]];
      }
    }
  }

  /** Every distance is bounded by the longer string: substitute along the
      shorter one and insert or delete the rest. */
  lemma {:induction false} DistAtMostLonger(a: string, b: string)
    ensures Dist(a, b) <= if |a| <= |b| then |b| else |a|
    decreases |a| + |b|
  {
    if |a| > 0 && |b| > 0 {
      DistAtMostLonger(a[..|a| - 1], b[..|b| - 1]);
    }
  }
}
