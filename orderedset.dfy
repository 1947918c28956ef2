/** Insertion-ordered collections of strings: JavaScript's Set, and the
    filtering the backend does on them. */
module OrderedSet {
  predicate NoDuplicates(s: seq<string>)
  {
    forall i, j :: 0 <= i < j < |s| ==> s[i] != s[j]
  }

  /** Set.prototype.add: appended unless already present. */
  function SetAdd(s: seq<string>, x: string): seq<string>
  {
    if x in s then s else s + [x]
  }

  /** Set.prototype.delete. */
  function SetDelete(s: seq<string>, x: string): (r: seq<string>)
    ensures |r| <= |s|
  {
    if s == [] then []
    else (if s[0] == x then [] else [s[0]]) + SetDelete(s[1..], x)
  }

  /** new Set(xs), with elements in first-insertion order. */
  function SetOf(xs: seq<string>): seq<string>
  {
    if xs == [] then [] else SetAdd(SetOf(xs[..|xs| - 1]), xs[|xs| - 1])
  }

  /** The elements of s that are not in ms, in order. */
  function FilterOut(s: seq<string>, ms: seq<string>): seq<string>
  {
    if s == [] then [] else (if s[0] in ms then [] else [s[0]]) + FilterOut(s[1..], ms)
  }

  lemma {:induction false} SetOfSpec(xs: seq<string>)
    ensures forall x :: x in SetOf(xs) <==> x in xs
    ensures NoDuplicates(SetOf(xs))
  {
    if xs != [] {
      var init := xs[..|xs| - 1];
      SetOfSpec(init);
      assert xs == init + [xs[|xs| - 1]];
    }
  }

  lemma {:induction false} FilterOutSpec(s: seq<string>, ms: seq<string>)
    ensures forall x :: x in FilterOut(s, ms) <==> x in s && x !in ms
  {
    if s != [] {
      FilterOutSpec(s[1..], ms);
      assert s == [s[0]] + s[1..];
    }
  }

  /** A subsequence of a duplicate-free sequence is duplicate-free. */
  lemma {:induction false} FilterOutNoDuplicates(s: seq<string>, ms: seq<string>)
    requires NoDuplicates(s)
    ensures NoDuplicates(FilterOut(s, ms))
  {
    if s != [] {
      FilterOutNoDuplicates(s[1..], ms);
      FilterOutSpec(s[1..], ms);
      var rest := FilterOut(s[1..], ms);
      assert s[0] !in s[1..] by {
        forall k | 0 <= k < |s[1..]| ensures s[1..][k] != s[0] {
          assert s[1..][k] == s[k + 1];
        }
      }
      if s[0] !in ms {
        var r := FilterOut(s, ms);
        assert r == [s[0]] + rest;
        forall i, j | 0 <= i < j < |r| ensures r[i] != r[j] {
          if i == 0 {
            assert r[j] == rest[j - 1];
          } else {
            assert r[i] == rest[i - 1] && r[j] == rest[j - 1];
          }
        }
      }
    }
  }

  /** Deleting one more covered point from the missed set. */
  lemma {:induction false} FilterOutSnoc(s: seq<string>, ms: seq<string>, p: string)
    ensures FilterOut(s, ms + [p]) == SetDelete(FilterOut(s, ms), p)
  {
    if s != [] {
      FilterOutSnoc(s[1..], ms, p);
      var rest := FilterOut(s[1..], ms);
      if s[0] in ms {
        assert s[0] in ms + [p];
        assert FilterOut(s, ms) == rest;
        assert FilterOut(s, ms + [p]) == FilterOut(s[1..], ms + [p]);
      } else if s[0] == p {
        assert s[0] in ms + [p];
        assert SetDelete([s[0]] + rest, p) == SetDelete(rest, p) by {
          assert ([s[0]] + rest)[1..] == rest;
        }
      } else {
        assert s[0] !in ms + [p];
        assert ([s[0]] + rest)[1..] == rest;
      }
    }
  }

  lemma SetOfSnoc(xs: seq<string>, x: string)
    ensures SetOf(xs + [x]) == SetAdd(SetOf(xs), x)
  {
    assert (xs + [x])[..|xs|] == xs;
  }

  lemma {:induction false} FilterOutNone(s: seq<string>)
    ensures FilterOut(s, []) == s
  {
    if s != [] {
      FilterOutNone(s[1..]);
      assert s == [s[0]] + s[1..];
    }
  }

  /** Filtering by two lists with the same members gives the same result. */
  lemma {:induction false} FilterOutSameMembers(s: seq<string>, a: seq<string>, b: seq<string>)
    requires forall x :: x in a <==> x in b
    ensures FilterOut(s, a) == FilterOut(s, b)
  {
    if s != [] {
      FilterOutSameMembers(s[1..], a, b);
    }
  }

  lemma {:induction false} DeleteAbsent(s: seq<string>, p: string)
    requires p !in s
    ensures SetDelete(s, p) == s
  {
    if s != [] {
      DeleteAbsent(s[1..], p);
      assert s == [s[0]] + s[1..];
    }
  }

  /** new Set(xs) of a duplicate-free sequence holds the same elements in the same order. */
  lemma {:induction false} SetOfDistinct(xs: seq<string>)
    requires NoDuplicates(xs)
    ensures SetOf(xs) == xs
  {
    if xs != [] {
      var init := xs[..|xs| - 1];
      SetOfDistinct(init);
      assert xs[|xs| - 1] !in init by {
        forall k | 0 <= k < |init| ensures init[k] != xs[|xs| - 1] {
          assert init[k] == xs[k];
        }
      }
      assert init + [xs[|xs| - 1]] == xs;
    }
  }

  /** A set has no more elements than were added to it. */
  lemma {:induction false} SetOfLength(xs: seq<string>)
    ensures |SetOf(xs)| <= |xs|
  {
    if xs != [] {
      SetOfLength(xs[..|xs| - 1]);
    }
  }
}
