/**
 * String helpers with JavaScript semantics: `Array.prototype.join`,
 * `String.prototype.split` on a one-character separator, and `toUpperCase`
 * restricted to ASCII letters.
 */
module Strings {

  /** `xs.join(sep)`: the empty list joins to "". */
  function Join(xs: seq<string>, sep: string): string
  {
    if |xs| == 0 then ""
    else if |xs| == 1 then xs[0]
    else xs[0] + sep + Join(xs[1..], sep)
  }

  /** `xs.join('')`. */
  function Concat(xs: seq<string>): (r: string)
    ensures |xs| == 0 ==> r == ""
  {
    if |xs| == 0 then "" else xs[0] + Concat(xs[1..])
  }

  /**
   * `s.split(c)`: always at least one piece ("".split(c) is [""]), and no
   * piece contains the separator.
   */
  function Split(s: string, c: char): (pieces: seq<string>)
    ensures |pieces| >= 1
    ensures forall i :: 0 <= i < |pieces| ==> c !in pieces[i]
    ensures |pieces| == 1 <==> c !in s
  {
    if |s| == 0 then [""]
    else if s[0] == c then [""] + Split(s[1..], c)
    else
      var rest := Split(s[1..], c);
      [[s[0]] + rest[0]] + rest[1..]
  }

  /** A string without the separator splits into itself. */
  lemma {:induction false} SplitWithoutSeparator(s: string, c: char)
    requires c !in s
    ensures Split(s, c) == [s]
  {
    if |s| > 0 {
      SplitWithoutSeparator(s[1..], c);
      assert [s[0]] + s[1..] == s;
    }
  }

  /** `s.split(c)[0]` is the part of `s` before its first `c`, or all of `s`. */
  lemma {:induction false} SplitHead(s: string, c: char)
    ensures var h := Split(s, c)[0];
            h <= s && c !in h && (|h| < |s| ==> s[|h|] == c)
  {
    if |s| > 0 && s[0] != c {
      SplitHead(s[1..], c);
    }
  }

  /** Splitting `x + c + rest` yields `x` and then the pieces of `rest`. */
  lemma {:induction false} SplitAtFirstSeparator(x: string, rest: string, c: char)
    requires c !in x
    ensures Split(x + [c] + rest, c) == [x] + Split(rest, c)
  {
    if |x| == 0 {
      assert x + [c] + rest == [c] + rest;
    } else {
      var s := x + [c] + rest;
      SplitAtFirstSeparator(x[1..], rest, c);
      assert s[0] == x[0] && s[0] != c;
      assert s[1..] == x[1..] + [c] + rest;
      var r := Split(s[1..], c);
      assert r == [x[1..]] + Split(rest, c);
      assert Split(s, c) == [[x[0]] + r[0]] + r[1..];
      assert r[1..] == Split(rest, c);
      assert [x[0]] + x[1..] == x;
    }
  }

  /**
   * Joining with a one-character separator and splitting again recovers a
   * non-empty list exactly when no element contains the separator.
   */
  lemma {:induction false} SplitJoin(xs: seq<string>, c: char)
    requires |xs| >= 1
    ensures (Split(Join(xs, [c]), c) == xs) <==> (forall i :: 0 <= i < |xs| ==> c !in xs[i])
  {
    if forall i :: 0 <= i < |xs| ==> c !in xs[i] {
      SplitJoinClean(xs, c);
    } else {
      var i :| 0 <= i < |xs| && c in xs[i];
      var pieces := Split(Join(xs, [c]), c);
      if |pieces| == |xs| {
        assert c !in pieces[i] && c in xs[i];
        assert pieces[i] != xs[i];
      }
    }
  }

  lemma {:induction false} SplitJoinClean(xs: seq<string>, c: char)
    requires |xs| >= 1
    requires forall i :: 0 <= i < |xs| ==> c !in xs[i]
    ensures Split(Join(xs, [c]), c) == xs
  {
    if |xs| == 1 {
      SplitWithoutSeparator(xs[0], c);
    } else {
      SplitJoinClean(xs[1..], c);
      SplitAtFirstSeparator(xs[0], Join(xs[1..], [c]), c);
      assert [xs[0]] + xs[1..] == xs;
    }
  }

  /**
   * A character that is not in the separator occurs in a join exactly when
   * it occurs in one of the elements.
   */
  lemma {:induction false} JoinChars(xs: seq<string>, sep: string, ch: char)
    requires ch !in sep
    ensures ch in Join(xs, sep) <==> exists i :: 0 <= i < |xs| && ch in xs[i]
  {
    if |xs| > 1 {
      JoinChars(xs[1..], sep, ch);
      assert Join(xs, sep) == xs[0] + sep + Join(xs[1..], sep);
      if exists i :: 0 <= i < |xs[1..]| && ch in xs[1..][i] {
        var i :| 0 <= i < |xs[1..]| && ch in xs[1..][i];
        assert xs[i + 1] == xs[1..][i];
      }
      if exists i :: 0 <= i < |xs| && ch in xs[i] {
        var i :| 0 <= i < |xs| && ch in xs[i];
        if i > 0 {
          assert xs[1..][i - 1] == xs[i];
        }
      }
    }
  }

  /** ASCII upper-casing of one character. */
  function UpperChar(ch: char): char
  {
    if 'a' <= ch <= 'z' then (ch as int - 'a' as int + 'A' as int) as char else ch
  }

  /** `s.toUpperCase()` on ASCII letters: same length, no lower-case ASCII letter left. */
  function ToUpper(s: string): (r: string)
    ensures |r| == |s|
    ensures forall i :: 0 <= i < |s| ==> r[i] == UpperChar(s[i])
    ensures forall i :: 0 <= i < |r| ==> !('a' <= r[i] <= 'z')
  {
    if |s| == 0 then "" else [UpperChar(s[0])] + ToUpper(s[1..])
  }

  /**
   * The order of `Array.prototype.sort()` without a comparator: character by
   * character, a proper prefix first.
   */
  predicate StrLe(a: string, b: string)
  {
    |a| == 0 || (|b| > 0 && (a[0] < b[0] || (a[0] == b[0] && StrLe(a[1..], b[1..]))))
  }

  lemma {:induction false} StrLeTotal(a: string, b: string)
    ensures StrLe(a, b) || StrLe(b, a)
  {
    if |a| > 0 && |b| > 0 && a[0] == b[0] {
      StrLeTotal(a[1..], b[1..]);
    }
  }

  lemma {:induction false} StrLeAntisymmetric(a: string, b: string)
    requires StrLe(a, b) && StrLe(b, a)
    ensures a == b
  {
    if |a| > 0 && |b| > 0 {
      StrLeAntisymmetric(a[1..], b[1..]);
      assert a == [a[0]] + a[1..] && b == [b[0]] + b[1..];
    }
  }

  lemma {:induction false} StrLeTransitive(a: string, b: string, c: string)
    requires StrLe(a, b) && StrLe(b, c)
    ensures StrLe(a, c)
  {
    if |a| > 0 && |b| > 0 && |c| > 0 && a[0] == b[0] && b[0] == c[0] {
      StrLeTransitive(a[1..], b[1..], c[1..]);
    }
  }

  predicate SortedStrings(s: seq<string>)
  {
    forall i, j :: 0 <= i < j < |s| ==> StrLe(s[i], s[j])
  }

  /** Two sorted lists holding the same strings start with the same string. */
  lemma SortedSameHead(a: seq<string>, b: seq<string>)
    requires SortedStrings(a) && SortedStrings(b) && multiset(a) == multiset(b) && |a| > 0
    ensures |b| > 0 && a[0] == b[0]
  {
    assert a[0] in multiset(b);
    var k :| 0 <= k < |b| && b[k] == a[0];
    assert b[0] in multiset(a);
    var m :| 0 <= m < |a| && a[m] == b[0];
    if k > 0 && m > 0 {
      assert StrLe(b[0], b[k]) && StrLe(a[0], a[m]);
      StrLeAntisymmetric(a[0], b[0]);
    }
  }

  lemma TailsSameMultiset(a: seq<string>, b: seq<string>)
    requires multiset(a) == multiset(b) && |a| > 0 && |b| > 0 && a[0] == b[0]
    ensures multiset(a[1..]) == multiset(b[1..])
  {
    assert a == [a[0]] + a[1..] && b == [b[0]] + b[1..];
    assert multiset(a) == multiset{a[0]} + multiset(a[1..]);
    assert multiset(b) == multiset{b[0]} + multiset(b[1..]);
    var x := a[0];
    assert multiset(a[1..]) == multiset(a) - multiset{x};
    assert multiset(b[1..]) == multiset(b) - multiset{x};
  }

  /** Two sorted lists holding the same strings are the same list. */
  lemma {:induction false} SortedUnique(a: seq<string>, b: seq<string>)
    requires SortedStrings(a) && SortedStrings(b) && multiset(a) == multiset(b)
    ensures a == b
  {
    if |a| > 0 {
      SortedSameHead(a, b);
      TailsSameMultiset(a, b);
      assert SortedStrings(a[1..]) && SortedStrings(b[1..]);
      SortedUnique(a[1..], b[1..]);
      assert a == [a[0]] + a[1..] && b == [b[0]] + b[1..];
    } else {
      assert |multiset(b)| == 0;
    }
  }
}
