/** Joining and splitting strings at a separator, and the order strings sort in. */
module Texts {

  function Join(parts: seq<string>, sep: char): string {
    if parts == [] then "" else if |parts| == 1 then parts[0] else parts[0] + [sep] + Join(parts[1..], sep)
  }

  lemma {:induction false} JoinMore(parts: seq<string>, more: seq<string>, sep: char)
    requires parts != [] && more != []
    ensures Join(parts + more, sep) == Join(parts, sep) + [sep] + Join(more, sep)
    decreases |parts|
  {
    if |parts| > 1 {
      assert (parts + more)[1..] == parts[1..] + more;
      JoinMore(parts[1..], more, sep);
      var a, b, c := parts[0] + [sep], Join(parts[1..], sep), [sep] + Join(more, sep);
      assert a + (b + c) == a + b + c;
    } else {
      assert (parts + more)[1..] == more;
    }
  }

  function Split(s: string, sep: char): (parts: seq<string>)
    ensures parts != []
  {
    SplitFrom("", s, sep)
  }

  function SplitFrom(word: string, rest: string, sep: char): (parts: seq<string>)
    ensures parts != []
    decreases |rest|
  {
    if rest == "" then [word]
    else if rest[0] == sep then [word] + SplitFrom("", rest[1..], sep)
    else SplitFrom(word + [rest[0]], rest[1..], sep)
  }

  predicate Lacks(s: string, sep: char) {
    sep !in s
  }

  lemma {:induction false} SplitWord(word: string, s: string, rest: string, sep: char)
    requires Lacks(s, sep)
    ensures SplitFrom(word, s + [sep] + rest, sep) == [word + s] + SplitFrom("", rest, sep)
    ensures SplitFrom(word, s, sep) == [word + s]
    decreases |s|
  {
    if s == "" {
      assert s + [sep] + rest == [sep] + rest;
      assert ([sep] + rest)[1..] == rest;
      assert word + s == word;
    } else {
      assert (s + [sep] + rest)[1..] == s[1..] + [sep] + rest;
      assert word + [s[0]] + s[1..] == word + s;
      SplitWord(word + [s[0]], s[1..], rest, sep);
    }
  }

  /** Splitting undoes joining, so joined lists of words without the separator differ when the lists do. */
  lemma {:induction false} SplitJoin(parts: seq<string>, sep: char)
    requires parts != [] && forall p :: p in parts ==> Lacks(p, sep)
    ensures Split(Join(parts, sep), sep) == parts
    decreases |parts|
  {
    assert "" + parts[0] == parts[0];
    if |parts| == 1 {
      SplitWord("", parts[0], "", sep);
      assert parts == [parts[0]];
    } else {
      SplitWord("", parts[0], Join(parts[1..], sep), sep);
      assert parts[0] in parts;
      SplitJoin(parts[1..], sep);
      assert parts == [parts[0]] + parts[1..];
    }
  }

  lemma {:induction false} PiecesLack(word: string, s: string, sep: char)
    requires Lacks(word, sep)
    ensures forall p :: p in SplitFrom(word, s, sep) ==> Lacks(p, sep)
    decreases |s|
  {
    if s != "" {
      PiecesLack(if s[0] == sep then "" else word + [s[0]], s[1..], sep);
    }
  }

  lemma {:induction false} SplitsInTwo(word: string, s: string, sep: char)
    requires sep in s
    ensures |SplitFrom(word, s, sep)| >= 2
    decreases |s|
  {
    if s[0] != sep {
      SplitsInTwo(word + [s[0]], s[1..], sep);
    }
  }

  // ---- Order ----

  /** The order of `sort()`: by code unit, a prefix first. */
  predicate Before(a: string, b: string) {
    b != "" && (a == "" || a[0] < b[0] || (a[0] == b[0] && Before(a[1..], b[1..])))
  }

  predicate DiffersAt(a: string, b: string, i: int) {
    0 <= i < |a| && i < |b| && a[..i] == b[..i] && a[i] < b[i]
  }

  lemma DiffersLater(a: string, b: string, i: nat)
    requires a != "" && b != "" && a[0] == b[0]
    ensures DiffersAt(a, b, i + 1) <==> DiffersAt(a[1..], b[1..], i)
  {
    if i + 1 <= |a| && i + 1 <= |b| {
      assert a[..i + 1] == [a[0]] + a[1..][..i] && b[..i + 1] == [b[0]] + b[1..][..i];
      assert a[..i + 1][1..] == a[1..][..i] && b[..i + 1][1..] == b[1..][..i];
    }
  }

  lemma PrefixLater(a: string, b: string)
    requires a != "" && b != "" && a[0] == b[0]
    ensures a < b <==> a[1..] < b[1..]
  {
    assert a == [a[0]] + a[1..] && b == [b[0]] + b[1..];
  }

  /** The order of dictionaries: a text comes before its continuations, and otherwise the first character that differs
      decides. */
  lemma {:induction false} BeforeIff(a: string, b: string)
    ensures Before(a, b) <==> a < b || exists i :: DiffersAt(a, b, i)
    decreases a
  {
    if a != "" && b != "" && a[0] == b[0] {
      BeforeIff(a[1..], b[1..]);
      PrefixLater(a, b);
      if i :| DiffersAt(a, b, i) {
        DiffersLater(a, b, i - 1);
      }
      if i :| DiffersAt(a[1..], b[1..], i) {
        DiffersLater(a, b, i);
      }
    } else if a != "" && b != "" {
      assert a[..0] == b[..0];
      assert a[0] < b[0] ==> DiffersAt(a, b, 0);
    }
  }

  lemma {:induction false} BeforeIsStrict(a: string, b: string)
    ensures Before(a, b) || Before(b, a) || a == b
    ensures Before(a, b) ==> !Before(b, a) && a != b
    decreases |a|
  {
    if a != "" && b != "" {
      BeforeIsStrict(a[1..], b[1..]);
      assert a == [a[0]] + a[1..] && b == [b[0]] + b[1..];
    }
  }

  lemma {:induction false} BeforeIsTransitive(a: string, b: string, c: string)
    requires Before(a, b) && Before(b, c)
    ensures Before(a, c)
    decreases |a|
  {
    if a != "" && a[0] == b[0] == c[0] {
      BeforeIsTransitive(a[1..], b[1..], c[1..]);
    }
  }

  predicate Sorted(s: seq<string>) {
    forall i, j :: 0 <= i < j < |s| ==> Before(s[i], s[j])
  }

  function SetOf<T>(s: seq<T>): set<T> {
    set x | x in s
  }

  lemma EmptyListing(s: seq<string>)
    ensures SetOf(s) == {} <==> s == []
  {
    if s != [] {
      assert s[0] in SetOf(s);
    }
  }

  /** A set has one sorted listing. */
  lemma {:induction false} SortedIsUnique(a: seq<string>, b: seq<string>)
    requires Sorted(a) && Sorted(b) && SetOf(a) == SetOf(b)
    ensures a == b
    decreases |a|
  {
    if a == [] || b == [] {
      EmptyListing(a);
      EmptyListing(b);
    } else {
      FirstIsLeast(a, b);
      RestOf(a);
      RestOf(b);
      SortedIsUnique(a[1..], b[1..]);
      assert a == [a[0]] + a[1..] && b == [b[0]] + b[1..];
    }
  }

  lemma FirstIsLeast(a: seq<string>, b: seq<string>)
    requires Sorted(a) && Sorted(b) && SetOf(a) == SetOf(b) && a != [] && b != []
    ensures a[0] == b[0]
  {
    assert a[0] in SetOf(b) && b[0] in SetOf(a);
    BeforeIsStrict(a[0], b[0]);
  }

  lemma RestOf(a: seq<string>)
    requires Sorted(a) && a != []
    ensures SetOf(a[1..]) == SetOf(a) - {a[0]} && Sorted(a[1..])
  {
    forall x | x in a[1..]
      ensures x != a[0]
    {
      var i :| 0 < i < |a| && a[i] == x;
      BeforeIsStrict(a[0], x);
    }
  }

  /** `Array.from(set).sort()` */
  method Sort(items: set<string>) returns (sorted: seq<string>)
    ensures Sorted(sorted) && SetOf(sorted) == items
  {
    sorted := [];
    var todo := items;
    while todo != {}
      invariant todo <= items && SetOf(sorted) == items - todo && Sorted(sorted)
      decreases todo
    {
      var x :| x in todo;
      todo := todo - {x};
      sorted := Insert(sorted, x);
    }
  }

  method Insert(sorted: seq<string>, x: string) returns (more: seq<string>)
    requires Sorted(sorted) && x !in sorted
    ensures Sorted(more) && SetOf(more) == SetOf(sorted) + {x}
  {
    var n := 0;
    while n < |sorted| && Before(sorted[n], x)
      invariant 0 <= n <= |sorted|
      invariant forall i :: 0 <= i < n ==> Before(sorted[i], x)
    {
      n := n + 1;
    }
    more := sorted[..n] + [x] + sorted[n..];
    BeforeTheRest(sorted, x, n);
    InsertedIsSorted(sorted, x, n);
    InsertedSet(sorted, x, n);
  }

  lemma {:induction false} BeforeTheRest(sorted: seq<string>, x: string, n: nat)
    requires Sorted(sorted) && x !in sorted && n <= |sorted| && (n < |sorted| ==> !Before(sorted[n], x))
    ensures forall i :: n <= i < |sorted| ==> Before(x, sorted[i])
  {
    forall i | n <= i < |sorted|
      ensures Before(x, sorted[i])
    {
      BeforeIsStrict(x, sorted[n]);
      if i > n {
        BeforeIsTransitive(x, sorted[n], sorted[i]);
      }
    }
  }

  lemma {:induction false} InsertedIsSorted(sorted: seq<string>, x: string, n: nat)
    requires Sorted(sorted) && n <= |sorted|
    requires (forall i :: 0 <= i < n ==> Before(sorted[i], x)) && forall i :: n <= i < |sorted| ==> Before(x, sorted[i])
    ensures Sorted(sorted[..n] + [x] + sorted[n..])
  {
    var more := sorted[..n] + [x] + sorted[n..];
    forall i, j | 0 <= i < j < |more|
      ensures Before(more[i], more[j])
    {
      var a, b := if i < n then i else i - 1, if j < n then j else j - 1;
      assert i != n ==> more[i] == sorted[a];
      assert j != n ==> more[j] == sorted[b];
    }
  }

  lemma InsertedSet(sorted: seq<string>, x: string, n: nat)
    requires n <= |sorted|
    ensures SetOf(sorted[..n] + [x] + sorted[n..]) == SetOf(sorted) + {x}
  {
    assert sorted == sorted[..n] + sorted[n..];
  }
}
