/** Go's ordering of strings, the sort that sort.Strings performs, and
    strings.Join with its inverse.

    Go compares strings byte by byte in UTF-8; here a string is a sequence
    of Unicode scalar values, and UTF-8 keeps the code point order, so
    comparing code points one by one orders strings the same way. */
module Lexicographic {

  /** a <= b in Go's string order: a is a prefix of b, or at the first
      position where they differ a has the smaller character. */
  predicate LessEq(a: string, b: string) {
    a == [] || (b != [] && (a[0] < b[0] || (a[0] == b[0] && LessEq(a[1..], b[1..]))))
  }

  lemma {:induction false} LessEqReflexive(a: string)
    ensures LessEq(a, a)
  {
    if a != [] {
      LessEqReflexive(a[1..]);
    }
  }

  lemma {:induction false} LessEqAntisymmetric(a: string, b: string)
    requires LessEq(a, b) && LessEq(b, a)
    ensures a == b
  {
    if a != [] && b != [] {
      LessEqAntisymmetric(a[1..], b[1..]);
      assert a == [a[0]] + a[1..] && b == [b[0]] + b[1..];
    }
  }

  lemma {:induction false} LessEqTransitive(a: string, b: string, c: string)
    requires LessEq(a, b) && LessEq(b, c)
    ensures LessEq(a, c)
  {
    if a != [] && a[0] == b[0] && b[0] == c[0] {
      LessEqTransitive(a[1..], b[1..], c[1..]);
    }
  }

  lemma {:induction false} LessEqTotal(a: string, b: string)
    ensures LessEq(a, b) || LessEq(b, a)
  {
    if a != [] && b != [] && a[0] == b[0] {
      LessEqTotal(a[1..], b[1..]);
    }
  }

  ghost predicate Sorted(s: seq<string>) {
    forall i, j | 0 <= i < j < |s| :: LessEq(s[i], s[j])
  }

  /** Places x in front of the first element it does not exceed. */
  function Insert(x: string, s: seq<string>): (r: seq<string>)
    requires Sorted(s)
    ensures Sorted(r)
    ensures multiset(r) == multiset(s) + multiset{x}
  {
    if s == [] then [x]
    else if LessEq(x, s[0]) then
      InsertFront(x, s);
      [x] + s
    else
      SortedTail(s);
      var rest := Insert(x, s[1..]);
      InsertBehind(x, s, rest);
      [s[0]] + rest
  }

  lemma InsertFront(x: string, s: seq<string>)
    requires Sorted(s) && s != [] && LessEq(x, s[0])
    ensures Sorted([x] + s)
  {
    var r := [x] + s;
    forall i, j | 0 <= i < j < |r| ensures LessEq(r[i], r[j]) {
      if i == 0 && j > 1 {
        LessEqTransitive(x, s[0], s[j - 1]);
      } else if i > 0 {
        assert r[i] == s[i - 1] && r[j] == s[j - 1];
      }
    }
  }

  lemma InsertBehind(x: string, s: seq<string>, rest: seq<string>)
    requires Sorted(s) && s != [] && !LessEq(x, s[0])
    requires Sorted(rest) && multiset(rest) == multiset(s[1..]) + multiset{x}
    ensures Sorted([s[0]] + rest)
    ensures multiset([s[0]] + rest) == multiset(s) + multiset{x}
  {
    LessEqTotal(x, s[0]);
    assert s == [s[0]] + s[1..];
    var r := [s[0]] + rest;
    forall i, j | 0 <= i < j < |r| ensures LessEq(r[i], r[j]) {
      assert r[j] == rest[j - 1];
      assert rest[j - 1] in multiset(rest);
      assert rest[j - 1] == x || rest[j - 1] in multiset(s[1..]);
      if i == 0 {
        if rest[j - 1] != x {
          var k :| 1 <= k < |s| && s[k] == rest[j - 1] by {
            assert rest[j - 1] in s[1..];
          }
        }
      } else {
        assert r[i] == rest[i - 1];
      }
    }
  }

  /** sort.Strings: the input's elements in ascending order. */
  function SortStrings(s: seq<string>): (r: seq<string>)
    ensures Sorted(r)
    ensures multiset(r) == multiset(s)
  {
    if s == [] then []
    else
      assert s == [s[0]] + s[1..];
      Insert(s[0], SortStrings(s[1..]))
  }

  /** The first element of an ascending sequence is below every element. */
  lemma HeadIsLeast(a: seq<string>, x: string)
    requires Sorted(a) && x in a
    ensures LessEq(a[0], x)
  {
    var k :| 0 <= k < |a| && a[k] == x;
    if k == 0 {
      LessEqReflexive(x);
    }
  }

  /** There is only one ascending arrangement of a multiset of strings. */
  lemma {:induction false} SortedUnique(a: seq<string>, b: seq<string>)
    requires Sorted(a) && Sorted(b)
    requires multiset(a) == multiset(b)
    ensures a == b
  {
    if a == [] {
      assert |b| == |multiset(b)| == 0;
    } else {
      assert |b| == |multiset(b)| == |multiset(a)| == |a|;
      SameHead(a, b);
      TailMultiset(a);
      TailMultiset(b);
      SortedTail(a);
      SortedTail(b);
      SortedUnique(a[1..], b[1..]);
      assert a == [a[0]] + a[1..] && b == [b[0]] + b[1..];
    }
  }

  /** Two ascending arrangements of one multiset start alike. */
  lemma SameHead(a: seq<string>, b: seq<string>)
    requires Sorted(a) && Sorted(b) && a != [] && b != []
    requires multiset(a) == multiset(b)
    ensures a[0] == b[0]
  {
    assert a[0] in multiset(b) && b[0] in multiset(a);
    HeadIsLeast(b, a[0]);
    HeadIsLeast(a, b[0]);
    LessEqAntisymmetric(a[0], b[0]);
  }

  lemma SortedTail(a: seq<string>)
    requires Sorted(a) && a != []
    ensures Sorted(a[1..])
  {
    forall i, j | 0 <= i < j < |a| - 1 ensures LessEq(a[1..][i], a[1..][j]) {
      assert a[1..][i] == a[i + 1] && a[1..][j] == a[j + 1];
    }
  }

  lemma TailMultiset(a: seq<string>)
    requires a != []
    ensures multiset(a[1..]) == multiset(a) - multiset{a[0]}
  {
    assert a == [a[0]] + a[1..];
  }

  /** Sorting forgets the order of its input. */
  lemma SortOrderInvariant(a: seq<string>, b: seq<string>)
    requires multiset(a) == multiset(b)
    ensures SortStrings(a) == SortStrings(b)
  {
    SortedUnique(SortStrings(a), SortStrings(b));
  }

  /** Sorting an already ascending sequence leaves it as it is. */
  lemma SortIdempotent(a: seq<string>)
    requires Sorted(a)
    ensures SortStrings(a) == a
  {
    SortedUnique(SortStrings(a), a);
  }

  /** strings.Join: the elements with sep between neighbours. */
  function Join(ss: seq<string>, sep: string): (r: string)
    ensures ss == [] ==> r == ""
    ensures ss != [] ==> ss[0] <= r
    ensures ss != [] ==> |ss[|ss| - 1]| <= |r| && r[|r| - |ss[|ss| - 1]|..] == ss[|ss| - 1]
  {
    if |ss| == 0 then ""
    else if |ss| == 1 then ss[0]
    else ss[0] + sep + Join(ss[1..], sep)
  }

  /** strings.Split at a one-character separator: the pieces between the
      occurrences of sep, always at least one. */
  function Split(s: string, sep: char): (r: seq<string>)
    ensures |r| >= 1
  {
    if s == [] then [""]
    else
      var rest := Split(s[1..], sep);
      if s[0] == sep then [""] + rest
      else [[s[0]] + rest[0]] + rest[1..]
  }

  lemma {:induction false} SplitPrefix(x: string, s: string, sep: char)
    requires sep !in x
    ensures Split(x + s, sep) == [x + Split(s, sep)[0]] + Split(s, sep)[1..]
  {
    var tail := Split(s, sep);
    if x == [] {
      assert x + s == s;
      assert x + tail[0] == tail[0];
      assert [tail[0]] + tail[1..] == tail;
    } else {
      var rest := Split(x[1..] + s, sep);
      assert x[0] in x;
      assert x + s == [x[0]] + (x[1..] + s);
      SplitCons(x[0], x[1..] + s, sep);
      SplitPrefix(x[1..], s, sep);
      assert [x[0]] + (x[1..] + tail[0]) == x + tail[0];
    }
  }

  /** A character other than the separator joins the first piece. */
  lemma SplitCons(c: char, s: string, sep: char)
    requires c != sep
    ensures Split([c] + s, sep) == [[c] + Split(s, sep)[0]] + Split(s, sep)[1..]
  {
    assert ([c] + s)[0] == c && ([c] + s)[1..] == s;
  }

  /** Joining pieces free of the separator and splitting again gives the
      pieces back. */
  lemma {:induction false} SplitJoin(ss: seq<string>, sep: char)
    requires |ss| >= 1
    requires forall i | 0 <= i < |ss| :: sep !in ss[i]
    ensures Split(Join(ss, [sep]), sep) == ss
  {
    if |ss| == 1 {
      SplitPrefix(ss[0], "", sep);
      assert ss[0] + "" == ss[0];
    } else {
      var tail := Join(ss[1..], [sep]);
      SplitJoin(ss[1..], sep);
      assert Join(ss, [sep]) == ss[0] + ([sep] + tail);
      SplitPrefix(ss[0], [sep] + tail, sep);
      assert ([sep] + tail)[1..] == tail;
      var after := Split([sep] + tail, sep);
      assert after == [""] + ss[1..];
      assert after[0] == "" && after[1..] == ss[1..];
      assert Split(Join(ss, [sep]), sep) == [ss[0] + after[0]] + after[1..];
      assert ss[0] + after[0] == ss[0];
      assert ss == [ss[0]] + ss[1..];
    }
  }

  /** Sorting brings in no new strings. */
  lemma SortKeepsFree(ss: seq<string>, sep: char)
    requires forall i | 0 <= i < |ss| :: sep !in ss[i]
    ensures forall i | 0 <= i < |SortStrings(ss)| :: sep !in SortStrings(ss)[i]
  {
    var sorted := SortStrings(ss);
    forall i | 0 <= i < |sorted| ensures sep !in sorted[i] {
      assert sorted[i] in multiset(ss);
    }
  }

  /** Sorting strings free of sep and joining them with sep: splitting at
      sep gives back the strings, in ascending order. */
  lemma SortedJoinSplits(ss: seq<string>, sep: char)
    requires |ss| >= 1
    requires forall i | 0 <= i < |ss| :: sep !in ss[i]
    ensures var parts := Split(Join(SortStrings(ss), [sep]), sep);
            Sorted(parts) && multiset(parts) == multiset(ss)
  {
    var sorted := SortStrings(ss);
    assert |sorted| == |multiset(sorted)| == |multiset(ss)| == |ss|;
    SortKeepsFree(ss, sep);
    SplitJoin(sorted, sep);
  }
}
