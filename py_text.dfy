/** Models of the Python string built-ins that next_bus.py relies on:
    the `in` operator between two strings, ASCII `str.lower` and
    `str.split` with a one-character separator. */
module PyText {

  /** `p` occurs in `s` starting at offset `i`. */
  ghost predicate OccursAt(p: string, s: string, i: int) {
    0 <= i && i + |p| <= |s| && s[i..i + |p|] == p
  }

  /** The reference meaning of Python's `p in s`: some window of `s` equals `p`. */
  ghost predicate IsSubstring(p: string, s: string) {
    exists i :: OccursAt(p, s, i)
  }

  /** Python's `p in s` for two strings, scanning offsets from the left.
      The empty pattern occurs in every string. */
  function Contains(p: string, s: string): (b: bool)
    ensures b <==> IsSubstring(p, s)
    decreases |s|
  {
    if |s| < |p| then false
    else if s[..|p|] == p then assert OccursAt(p, s, 0); true
    else
      ContainsStep(p, s);
      Contains(p, s[1..])
  }

  /** When `p` is not a prefix of `s`, its occurrences in `s` are those in `s[1..]`. */
  lemma ContainsStep(p: string, s: string)
    requires |p| <= |s| && s[..|p|] != p
    ensures |s| > 0
    ensures IsSubstring(p, s) <==> IsSubstring(p, s[1..])
  {
    if IsSubstring(p, s) {
      var i :| OccursAt(p, s, i);
      assert i != 0;
      assert s[1..][i - 1..i - 1 + |p|] == s[i..i + |p|];
      assert OccursAt(p, s[1..], i - 1);
    }
    if IsSubstring(p, s[1..]) {
      var i :| OccursAt(p, s[1..], i);
      assert s[1..][i..i + |p|] == s[i + 1..i + 1 + |p|];
      assert OccursAt(p, s, i + 1);
    }
  }

  /** A pattern does not occur when its first character is absent from
      every offset where an occurrence could start. */
  lemma StartAbsent(p: string, s: string)
    requires |p| > 0
    requires |s| < |p| || p[0] !in s[..|s| - |p| + 1]
    ensures !Contains(p, s)
  {
  }

  /** A pattern does not occur in `a + b` when its first character is
      absent from `a` and `b` is too short to hold the whole pattern. */
  lemma AbsentBeforeTail(p: string, a: string, b: string)
    requires |p| > 0 && p[0] !in a && |b| < |p|
    ensures !Contains(p, a + b)
  {
    var s := a + b;
    if |p| <= |s| {
      var k := |s| - |p| + 1;
      assert s[..k] == a[..k];
    }
    StartAbsent(p, s);
  }

  /** A pattern absent from `b` stays absent after a prefix that lacks its first character. */
  lemma {:induction false} AbsentAfterPrefix(p: string, a: string, b: string)
    requires |p| > 0 && p[0] !in a && !Contains(p, b)
    ensures !Contains(p, a + b)
    decreases |a|
  {
    if a == [] {
      assert a + b == b;
    } else {
      var s := a + b;
      assert s[0] == a[0];
      if |p| <= |s| {
        assert s[..|p|][0] != p[0];
      }
      assert s[1..] == a[1..] + b;
      AbsentAfterPrefix(p, a[1..], b);
    }
  }

  /** `p` occurs in `a + p + b`, at offset `|a|`. */
  lemma InfixOccurs(a: string, p: string, b: string)
    ensures Contains(p, a + p + b)
  {
    assert (a + p + b)[|a|..|a| + |p|] == p;
    assert OccursAt(p, a + p + b, |a|);
  }

  /** A prefix of `s` occurs in `s`. */
  lemma PrefixOccurs(p: string, s: string)
    requires |p| <= |s| && s[..|p|] == p
    ensures Contains(p, s)
  {
    assert OccursAt(p, s, 0);
  }

  /** ASCII lower-casing of one character; every other character is left alone. */
  function LowerChar(c: char): (l: char)
    ensures !('A' <= l <= 'Z')
    ensures 'A' <= c <= 'Z' ==> 'a' <= l <= 'z' && l as int - c as int == 'a' as int - 'A' as int
    ensures !('A' <= c <= 'Z') ==> l == c
  {
    if 'A' <= c <= 'Z' then (c as int - 'A' as int + 'a' as int) as char else c
  }

  /** Python's `s.lower()`, restricted to ASCII letters. */
  function Lower(s: string): (r: string)
    ensures |r| == |s|
    ensures forall i :: 0 <= i < |s| ==> r[i] == LowerChar(s[i])
  {
    seq(|s|, i requires 0 <= i < |s| => LowerChar(s[i]))
  }

  /** Two strings of equal length that agree letter by letter up to ASCII case. */
  ghost predicate EqualIgnoringCase(a: string, b: string) {
    |a| == |b| && forall k :: 0 <= k < |a| ==> LowerChar(a[k]) == LowerChar(b[k])
  }

  /** The window of `s` at offset `i` equals `p` up to ASCII case. */
  ghost predicate OccursIgnoringCaseAt(p: string, s: string, i: int) {
    0 <= i && i + |p| <= |s| && EqualIgnoringCase(s[i..i + |p|], p)
  }

  /** `lower(p) in lower(s)` holds exactly when some window of `s` equals `p` up to ASCII case. */
  lemma LowerContainsIgnoresCase(p: string, s: string)
    ensures Contains(Lower(p), Lower(s)) <==> exists i :: OccursIgnoringCaseAt(p, s, i)
  {
    var lp, ls := Lower(p), Lower(s);
    forall i | 0 <= i && i + |p| <= |s|
      ensures OccursAt(lp, ls, i) <==> OccursIgnoringCaseAt(p, s, i)
    {
      var w := s[i..i + |p|];
      if OccursAt(lp, ls, i) {
        forall k | 0 <= k < |p| ensures LowerChar(w[k]) == LowerChar(p[k]) {
          assert ls[i..i + |p|][k] == lp[k];
        }
      }
      if OccursIgnoringCaseAt(p, s, i) {
        forall k | 0 <= k < |p| ensures ls[i..i + |p|][k] == lp[k] {
          assert w[k] == s[i + k];
        }
        assert ls[i..i + |p|] == lp;
      }
    }
    if Contains(lp, ls) {
      var i :| OccursAt(lp, ls, i);
      assert OccursIgnoringCaseAt(p, s, i);
    }
    if exists i :: OccursIgnoringCaseAt(p, s, i) {
      var i :| OccursIgnoringCaseAt(p, s, i);
      assert OccursAt(lp, ls, i);
    }
  }

  /** Index of the first `c` in `s`, or `|s|` when `c` does not occur. */
  function FindChar(s: string, c: char): (i: nat)
    ensures i <= |s|
    ensures i < |s| ==> s[i] == c
    ensures forall j :: 0 <= j < i ==> s[j] != c
  {
    if s == [] || s[0] == c then 0 else 1 + FindChar(s[1..], c)
  }

  /** `s` cut just before its first `c`: a `c`-free head and a tail that is empty or starts with `c`. */
  lemma CutAtFirst(s: string, c: char) returns (head: string, tail: string)
    ensures s == head + tail && c !in head
    ensures tail == [] || tail[0] == c
  {
    var k := FindChar(s, c);
    head, tail := s[..k], s[k..];
    assert s == head + tail;
  }

  /** The pieces glued back together with the separator between them. */
  function Join(parts: seq<string>, sep: char): string
    requires |parts| >= 1
  {
    if |parts| == 1 then parts[0] else parts[0] + [sep] + Join(parts[1..], sep)
  }

  /** Python's `s.split(sep)` for a one-character separator: the maximal
      separator-free pieces of `s`, in order; there is always at least one.
      A separator closes the current piece; any other character extends it. */
  function Split(s: string, sep: char): (parts: seq<string>)
    ensures |parts| >= 1
    decreases |s|
  {
    if s == [] then [[]]
    else
      var rest := Split(s[1..], sep);
      if s[0] == sep then [[]] + rest
      else [[s[0]] + rest[0]] + rest[1..]
  }

  /** No piece contains the separator. */
  lemma {:induction false} SplitPiecesFree(s: string, sep: char)
    ensures forall k :: 0 <= k < |Split(s, sep)| ==> sep !in Split(s, sep)[k]
    decreases |s|
  {
    if s != [] {
      SplitPiecesFree(s[1..], sep);
      var rest := Split(s[1..], sep);
      if s[0] != sep {
        var parts := Split(s, sep);
        assert forall k :: 1 <= k < |parts| ==> parts[k] == rest[k];
      }
    }
  }

  /** A separator-free string splits into itself alone. */
  lemma {:induction false} SplitNoSeparator(s: string, sep: char)
    requires sep !in s
    ensures Split(s, sep) == [s]
    decreases |s|
  {
    if s != [] {
      SplitNoSeparator(s[1..], sep);
      assert [s[0]] + s[1..] == s;
    }
  }

  /** The first piece is a prefix of the string. */
  lemma {:induction false} SplitFirstIsPrefix(s: string, sep: char)
    ensures |Split(s, sep)[0]| <= |s| && Split(s, sep)[0] == s[..|Split(s, sep)[0]|]
    decreases |s|
  {
    if s != [] && s[0] != sep {
      SplitFirstIsPrefix(s[1..], sep);
    }
  }

  /** There is more than one piece exactly when the separator occurs. */
  lemma {:induction false} SplitCount(s: string, sep: char)
    ensures |Split(s, sep)| == 1 <==> sep !in s
    decreases |s|
  {
    if s != [] {
      SplitCount(s[1..], sep);
      assert sep in s <==> s[0] == sep || sep in s[1..] by {
        assert s == [s[0]] + s[1..];
      }
    }
  }

  /** One step of splitting: the first character either closes an empty piece or extends the first piece. */
  lemma SplitCons(c: char, t: string, sep: char)
    ensures Split([c] + t, sep) ==
      if c == sep then [[]] + Split(t, sep)
      else [[c] + Split(t, sep)[0]] + Split(t, sep)[1..]
  {
    assert ([c] + t)[0] == c && ([c] + t)[1..] == t;
  }

  /** Extending the first piece commutes with appending further pieces. */
  lemma ExtendFirstPiece(c: char, front: seq<string>, back: seq<string>)
    requires |front| >= 1
    ensures [[c] + (front + back)[0]] + (front + back)[1..] == ([[c] + front[0]] + front[1..]) + back
  {
    assert (front + back)[0] == front[0];
    assert (front + back)[1..] == front[1..] + back;
  }

  /** Splitting distributes over a separator placed between two strings. */
  lemma {:induction false} SplitAround(a: string, b: string, sep: char)
    ensures Split(a + [sep] + b, sep) == Split(a, sep) + Split(b, sep)
    decreases |a|
  {
    if a == [] {
      assert a + [sep] + b == [sep] + b;
      SplitCons(sep, b, sep);
    } else {
      var c, t := a[0], a[1..];
      assert a == [c] + t;
      assert a + [sep] + b == [c] + (t + [sep] + b);
      SplitAround(t, b, sep);
      SplitCons(c, t + [sep] + b, sep);
      SplitCons(c, t, sep);
      if c == sep {
        assert ([[]] + Split(t, sep)) + Split(b, sep) == [[]] + (Split(t, sep) + Split(b, sep));
      } else {
        ExtendFirstPiece(c, Split(t, sep), Split(b, sep));
      }
    }
  }

  /** Splitting and joining the pieces again gives the string back. */
  lemma {:induction false} JoinSplit(s: string, sep: char)
    ensures Join(Split(s, sep), sep) == s
    decreases |s|
  {
    if s != [] {
      JoinSplit(s[1..], sep);
      var rest := Split(s[1..], sep);
      if s[0] == sep {
        assert ([[]] + rest)[1..] == rest;
      } else {
        JoinExtendsFirst(s[0], rest, sep);
      }
      assert [s[0]] + s[1..] == s;
    }
  }

  /** Extending the first piece extends the joined string at the front. */
  lemma JoinExtendsFirst(c: char, parts: seq<string>, sep: char)
    requires |parts| >= 1
    ensures Join([[c] + parts[0]] + parts[1..], sep) == [c] + Join(parts, sep)
  {
    var longer := [[c] + parts[0]] + parts[1..];
    if |parts| > 1 {
      assert longer[1..] == parts[1..];
    }
  }

  /** Joining separator-free pieces and splitting again gives the pieces back. */
  lemma {:induction false} SplitJoin(parts: seq<string>, sep: char)
    requires |parts| >= 1
    requires forall k :: 0 <= k < |parts| ==> sep !in parts[k]
    ensures Split(Join(parts, sep), sep) == parts
    decreases |parts|
  {
    if |parts| == 1 {
      SplitNoSeparator(parts[0], sep);
    } else {
      SplitJoin(parts[1..], sep);
      SplitAround(parts[0], Join(parts[1..], sep), sep);
      SplitNoSeparator(parts[0], sep);
    }
  }

  /** A separator-free `x` is the first piece of `x + y` when `y` is empty or starts with the separator. */
  lemma SplitFirstIs(x: string, y: string, sep: char)
    requires sep !in x
    requires y == [] || y[0] == sep
    ensures Split(x + y, sep)[0] == x
  {
    SplitNoSeparator(x, sep);
    if y == [] {
      assert x + y == x;
    } else {
      assert x + y == x + [sep] + y[1..];
      SplitAround(x, y[1..], sep);
    }
  }

  /** A separator-free `before` is the first piece, and the rest is split on its own. */
  lemma SplitAfterFirst(before: string, rest: string, sep: char)
    requires sep !in before
    ensures Split(before + [sep] + rest, sep) == [before] + Split(rest, sep)
  {
    SplitAround(before, rest, sep);
    SplitNoSeparator(before, sep);
  }
}
