/** The document-set fingerprint of flask_app.py: the SHA-256 digest of the locators
    sorted as Python sorts strings and joined with no separator. The digest itself is a
    parameter: nothing here depends on how it is computed. */
module Fingerprints {

  /** Python's `a <= b` on `str`: code point by code point, a proper prefix first. */
  predicate AtMost(a: string, b: string)
    decreases |a|
  {
    a == [] || (b != [] && (a[0] < b[0] || (a[0] == b[0] && AtMost(a[1..], b[1..]))))
  }

  lemma {:induction false} AtMostReflexive(a: string)
    ensures AtMost(a, a)
    decreases |a|
  {
    if a != [] { AtMostReflexive(a[1..]); }
  }

  lemma {:induction false} AtMostTotal(a: string, b: string)
    ensures AtMost(a, b) || AtMost(b, a)
    decreases |a|
  {
    if a != [] && b != [] && a[0] == b[0] { AtMostTotal(a[1..], b[1..]); }
  }

  lemma {:induction false} AtMostAntisymmetric(a: string, b: string)
    requires AtMost(a, b) && AtMost(b, a)
    ensures a == b
    decreases |a|
  {
    if a != [] {
      AtMostAntisymmetric(a[1..], b[1..]);
      assert a == [a[0]] + a[1..] && b == [b[0]] + b[1..];
    }
  }

  lemma {:induction false} AtMostTransitive(a: string, b: string, c: string)
    requires AtMost(a, b) && AtMost(b, c)
    ensures AtMost(a, c)
    decreases |a|
  {
    if a != [] && a[0] == b[0] && b[0] == c[0] { AtMostTransitive(a[1..], b[1..], c[1..]); }
  }

  predicate Sorted(s: seq<string>) {
    forall i, j :: 0 <= i < j < |s| ==> AtMost(s[i], s[j])
  }

  lemma {:induction false} HeadBelowMembers(s: seq<string>, e: string)
    requires Sorted(s) && e in s
    ensures AtMost(s[0], e)
  {
    var k :| 0 <= k < |s| && s[k] == e;
    if k == 0 { AtMostReflexive(e); }
  }

  /** Inserts `x` into a sorted list at its place. */
  function Insert(x: string, s: seq<string>): (r: seq<string>)
    requires Sorted(s)
    ensures Sorted(r) && multiset(r) == multiset(s) + multiset{x}
    decreases |s|
  {
    if s == [] then [x]
    else if AtMost(x, s[0]) then
      assert Sorted([x] + s) by {
        forall j | 0 <= j < |s| ensures AtMost(x, s[j]) {
          if j > 0 { AtMostTransitive(x, s[0], s[j]); }
        }
      }
      assert [x] + s == [x] + s[..];
      [x] + s
    else
      var t := Insert(x, s[1..]);
      AtMostTotal(x, s[0]);
      assert Sorted([s[0]] + t) by {
        forall j | 0 <= j < |t| ensures AtMost(s[0], t[j]) {
          assert t[j] in multiset(s[1..]) + multiset{x};
          if t[j] != x {
            assert t[j] in s[1..];
            HeadBelowMembers(s, t[j]);
          }
        }
      }
      assert s == [s[0]] + s[1..];
      [s[0]] + t
  }

  /** `sorted(xs)`: the sorted permutation of the list. */
  function Sort(xs: seq<string>): (r: seq<string>)
    ensures Sorted(r) && multiset(r) == multiset(xs)
  {
    if xs == [] then []
    else
      assert xs == [xs[0]] + xs[1..];
      Insert(xs[0], Sort(xs[1..]))
  }

  /** Two sorted lists holding the same strings are the same list. */
  lemma {:induction false} SortedUnique(a: seq<string>, b: seq<string>)
    requires Sorted(a) && Sorted(b) && multiset(a) == multiset(b)
    ensures a == b
    decreases |a|
  {
    assert |a| == |multiset(a)| == |multiset(b)| == |b|;
    if a != [] {
      SameHead(a, b);
      TailMultiset(a);
      TailMultiset(b);
      SortedUnique(a[1..], b[1..]);
      assert a == [a[0]] + a[1..] && b == [b[0]] + b[1..];
    }
  }

  lemma {:induction false} SameHead(a: seq<string>, b: seq<string>)
    requires Sorted(a) && Sorted(b) && multiset(a) == multiset(b) && a != [] && b != []
    ensures a[0] == b[0]
  {
    assert a[0] in multiset(b) && b[0] in multiset(a);
    HeadBelowMembers(b, a[0]);
    HeadBelowMembers(a, b[0]);
    AtMostAntisymmetric(a[0], b[0]);
  }

  lemma {:induction false} TailMultiset(a: seq<string>)
    requires a != []
    ensures multiset(a[1..]) == multiset(a) - multiset{a[0]}
  {
    assert a == [a[0]] + a[1..];
  }

  /** Sorting forgets the order the locators came in. */
  lemma {:induction false} SortIgnoresOrder(a: seq<string>, b: seq<string>)
    requires multiset(a) == multiset(b)
    ensures Sort(a) == Sort(b)
  {
    SortedUnique(Sort(a), Sort(b));
  }

  /** `"".join(xs)`. */
  function Join(xs: seq<string>): (r: string)
    ensures xs == [] ==> r == ""
    ensures xs != [] ==> |xs[0]| <= |r| && r[..|xs[0]|] == xs[0]
  {
    if xs == [] then "" else xs[0] + Join(xs[1..])
  }

  /** `"".join` concatenates: joining two lists end to end joins each and concatenates. */
  lemma {:induction false} JoinAppend(a: seq<string>, b: seq<string>)
    ensures Join(a + b) == Join(a) + Join(b)
    decreases |a|
  {
    if a == [] {
      assert a + b == b;
    } else {
      assert (a + b)[1..] == a[1..] + b;
      JoinAppend(a[1..], b);
    }
  }

  /** Joining a single string gives that string. */
  lemma {:induction false} JoinOne(x: string)
    ensures Join([x]) == x
  {
    assert [x][1..] == [];
    assert x + "" == x;
  }

  /** `hashlib.sha256("".join(sorted(xs)).encode()).hexdigest()` with the digest as `sha256`. */
  function Fingerprint(sha256: string -> string, xs: seq<string>): string {
    sha256(Join(Sort(xs)))
  }

  /** Every reordering of a document set (duplicates included) has the same fingerprint. */
  lemma {:induction false} FingerprintIgnoresOrder(sha256: string -> string, a: seq<string>, b: seq<string>)
    requires multiset(a) == multiset(b)
    ensures Fingerprint(sha256, a) == Fingerprint(sha256, b)
  {
    SortIgnoresOrder(a, b);
  }

  /** With no separator in the join, different document sets can share a fingerprint. */
  lemma {:induction false} FingerprintJoinCollision(sha256: string -> string)
    ensures Fingerprint(sha256, ["ab", "c"]) == Fingerprint(sha256, ["a", "bc"])
  {
    assert AtMost("ab", "c");
    SortOrderedPair("ab", "c");
    assert AtMost("a", "bc");
    SortOrderedPair("a", "bc");
    JoinPair("ab", "c");
    JoinPair("a", "bc");
    assert "ab" + "c" == "a" + "bc";
  }

  lemma {:induction false} JoinPair(a: string, b: string)
    ensures Join([a, b]) == a + b
  {
    assert [a, b][1..] == [b] && [b][1..] == [];
    assert Join([b]) == b + "";
  }

  lemma {:induction false} SortOrderedPair(a: string, b: string)
    requires AtMost(a, b)
    ensures Sort([a, b]) == [a, b]
  {
    SortedUnique([a, b], Sort([a, b]));
  }

  /** One locator is fingerprinted as the digest of the locator itself, which is the name
      utils/faiss_index_generator.py gives the index it saves for a single URL. */
  lemma {:induction false} FingerprintOfOne(sha256: string -> string, u: string)
    ensures Fingerprint(sha256, [u]) == sha256(u)
  {
    SortedUnique([u], Sort([u]));
    assert [u][1..] == [];
    assert Join([u]) == u + "" && u + "" == u;
  }
}
