/** Small helpers shared by every module of the model. */
module Common {

  /** A value that may be absent: `Array.prototype.find`'s `undefined`. */
  datatype Option<T> = None | Some(value: T)

  /** No object (or value) occurs twice in `s`: the arrays of particles and of
      rules hold records created one by one, never the same record twice. */
  ghost predicate Distinct<T>(s: seq<T>) {
    forall a, b :: 0 <= a < b < |s| ==> s[a] != s[b]
  }

  /** Two duplicate-free sequences with nothing in common concatenate to a
      duplicate-free sequence. */
  lemma DistinctConcat<T>(s: seq<T>, t: seq<T>)
    requires Distinct(s) && Distinct(t)
    requires forall x, y :: x in s && y in t ==> x != y
    ensures Distinct(s + t)
  {
    forall a, b | 0 <= a < b < |s + t| ensures (s + t)[a] != (s + t)[b] {
      if b < |s| {
        assert (s + t)[a] == s[a] && (s + t)[b] == s[b];
      } else if a < |s| {
        assert (s + t)[a] == s[a] && (s + t)[b] == t[b - |s|];
        assert s[a] in s && t[b - |s|] in t;
      } else {
        assert (s + t)[a] == t[a - |s|] && (s + t)[b] == t[b - |s|];
      }
    }
  }
}
