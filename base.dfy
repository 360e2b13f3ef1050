/** Option and Result, for the engine's nullable pointers and thrown errors. */
module Wrappers {

  datatype Option<T> = None | Some(value: T)

  /** The outcome of a constructor that may throw: the new object, or the error it threw. */
  datatype Result<T, E> = Ok(value: T) | Err(error: E)
}

/** Facts about sequences that several components share. */
module Seqs {

  /** No element occurs twice. */
  ghost predicate NoDuplicates<T>(s: seq<T>)
  {
    forall i, j :: 0 <= i < j < |s| ==> s[i] != s[j]
  }

  /** `s` lists every element of `keys` exactly once: the order in which a loop
      over an unordered container visits its keys. */
  ghost predicate Enumerates<T>(s: seq<T>, keys: set<T>)
  {
    NoDuplicates(s) && keys == set i | 0 <= i < |s| :: s[i]
  }

  /** Concatenation regrouped: used where a trace grows by a step at a time. */
  lemma AppendAssoc<T>(a: seq<T>, b: seq<T>, c: seq<T>)
    ensures a + b + c == a + (b + c)
  {
  }

  lemma AppendAssoc4<T>(s: seq<T>, a: seq<T>, b: seq<T>, c: seq<T>, d: seq<T>)
    ensures s + a + b + c + d == s + (a + b + c + d)
  {
  }

  /** An enumeration of a set has exactly as many elements as the set. */
  lemma {:induction false} EnumerationLength<T>(s: seq<T>, keys: set<T>)
    requires Enumerates(s, keys)
    ensures |s| == |keys|
  {
    if s != [] {
      var last := s[|s| - 1];
      var init := s[..|s| - 1];
      assert keys - {last} == set i | 0 <= i < |init| :: init[i] by {
        forall x | x in keys - {last} ensures x in set i | 0 <= i < |init| :: init[i] {
          var i :| 0 <= i < |s| && s[i] == x;
          assert init[i] == x;
        }
      }
      EnumerationLength(init, keys - {last});
    }
  }

  /** The elements among the first i + 1 are those among the first i, and s[i]. */
  lemma PrefixElementsSnoc<T>(s: seq<T>, i: nat)
    requires i < |s|
    ensures (set j | 0 <= j < i + 1 :: s[j]) == (set j | 0 <= j < i :: s[j]) + {s[i]}
  {
  }

  /** Visiting one more key, not visited before, extends the enumeration. */
  lemma EnumeratesSnoc<T>(s: seq<T>, keys: set<T>, x: T)
    requires Enumerates(s, keys) && x !in keys
    ensures Enumerates(s + [x], keys + {x})
  {
    var t := s + [x];
    forall y | y in keys + {x} ensures y in set i | 0 <= i < |t| :: t[i] {
      if y == x {
        assert t[|s|] == x;
      } else {
        var i :| 0 <= i < |s| && s[i] == y;
        assert t[i] == y;
      }
    }
  }
}
