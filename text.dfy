/** String handling that the injector and the verifier rely on: splitting on a
    separator, joining, suffixes of file names, literal search-and-replace and
    the ordering Python's `sorted` uses on strings. */
module Text {
  import opened Base

  // ---------------------------------------------------------------------------
  // Searching

  /** `p` occurs somewhere in `s`. */
  predicate Contains(s: string, p: string)
  {
    exists i :: 0 <= i <= |s| - |p| && p <= s[i..]
  }

  /** Split `s` at the first `c`, as `s.split(c, 1)` does when it finds one. */
  function SplitOnce(s: string, c: char): (r: Option<(string, string)>)
    ensures r.None? ==> c !in s
    ensures r.Some? ==> s == r.value.0 + [c] + r.value.1 && c !in r.value.0
  {
    if s == [] then None
    else if s[0] == c then Some(([], s[1..]))
    else match SplitOnce(s[1..], c)
      case None => None
      case Some((a, b)) => Some(([s[0]] + a, b))
  }

  /** The first `c` in `a + [c] + b` is the one after `a` when `a` has none. */
  lemma {:induction false} SplitOnceAt(a: string, c: char, b: string)
    requires c !in a
    ensures SplitOnce(a + [c] + b, c) == Some((a, b))
    decreases |a|
  {
    var s := a + [c] + b;
    if a != [] {
      assert s[1..] == a[1..] + [c] + b;
      SplitOnceAt(a[1..], c, b);
      assert [a[0]] + a[1..] == a;
    }
  }

  /** Index of the last `c` in `s`, as `s.rfind(c)` (None for -1). */
  function LastIndex(s: string, c: char): (r: Option<nat>)
    ensures r.None? ==> c !in s
    ensures r.Some? ==> r.value < |s| && s[r.value] == c && c !in s[r.value + 1..]
  {
    if s == [] then None
    else if s[|s| - 1] == c then Some(|s| - 1)
    else LastIndex(s[..|s| - 1], c)
  }

  /** The last `c` is at `i` exactly when nothing after `i` is a `c`. */
  lemma LastIndexAt(s: string, c: char, i: nat)
    requires i < |s| && s[i] == c && c !in s[i + 1..]
    ensures LastIndex(s, c) == Some(i)
  {
    var r := LastIndex(s, c);
    assert s[i] in s;
  }

  // ---------------------------------------------------------------------------
  // Splitting and joining

  /** `s.split(c)`: never empty, and no piece holds the separator. */
  function Split(s: string, c: char): (r: seq<string>)
    ensures |r| >= 1
    ensures forall i :: 0 <= i < |r| ==> c !in r[i]
    decreases |s|
  {
    match SplitOnce(s, c)
    case None => [s]
    case Some((a, b)) => [a] + Split(b, c)
  }

  /** `sep.join(parts)`. */
  function Join(parts: seq<string>, sep: string): string
  {
    if |parts| == 0 then ""
    else if |parts| == 1 then parts[0]
    else parts[0] + sep + Join(parts[1..], sep)
  }

  /** Joining what `Split` cut gives the original string back. */
  lemma {:induction false} JoinSplit(s: string, c: char)
    ensures Join(Split(s, c), [c]) == s
    decreases |s|
  {
    match SplitOnce(s, c)
    case None =>
    case Some((a, b)) =>
      JoinSplit(b, c);
      var rest := Split(b, c);
      assert ([a] + rest)[1..] == rest;
  }

  /** Splitting a join of separator-free pieces gives the pieces back. */
  lemma {:induction false} SplitJoin(parts: seq<string>, c: char)
    requires |parts| >= 1
    requires forall i :: 0 <= i < |parts| ==> c !in parts[i]
    ensures Split(Join(parts, [c]), c) == parts
    decreases |parts|
  {
    if |parts| == 1 {
    } else {
      SplitOnceAt(parts[0], c, Join(parts[1..], [c]));
      SplitJoin(parts[1..], c);
      assert [parts[0]] + parts[1..] == parts;
    }
  }

  /** Joining a one-character-longer first piece adds that character in front. */
  lemma {:induction false} JoinPrepend(ch: char, parts: seq<string>, sep: string)
    requires |parts| >= 1
    ensures Join([[ch] + parts[0]] + parts[1..], sep) == [ch] + Join(parts, sep)
  {
    var q := [[ch] + parts[0]] + parts[1..];
    if |parts| > 1 {
      assert q[1..] == parts[1..];
    }
  }

  // ---------------------------------------------------------------------------
  // Case and white space

  /** `c.lower()` for ASCII letters; every other character is unchanged. */
  function LowerChar(ch: char): char
  {
    if 'A' <= ch <= 'Z' then (ch as int + 32) as char else ch
  }

  function Lower(s: string): string
  {
    seq(|s|, i requires 0 <= i < |s| => LowerChar(s[i]))
  }

  /** The characters for which Python's `str.isspace()` is true. */
  predicate IsSpace(ch: char)
  {
    || '\U{0009}' <= ch <= '\U{000D}'
    || '\U{001C}' <= ch <= '\U{0020}'
    || ch == '\U{0085}' || ch == '\U{00A0}' || ch == '\U{1680}'
    || '\U{2000}' <= ch <= '\U{200A}'
    || ch == '\U{2028}' || ch == '\U{2029}' || ch == '\U{202F}'
    || ch == '\U{205F}' || ch == '\U{3000}'
  }

  /** `s.strip()` is empty. */
  predicate IsBlank(s: string)
  {
    forall i :: 0 <= i < |s| ==> IsSpace(s[i])
  }

  // ---------------------------------------------------------------------------
  // Literal replacement

  /** `re.sub(re.escape(pat), rep, text)` with a replacement free of escapes:
      scanning left to right, every occurrence of `pat` that does not overlap
      an earlier replaced one becomes `rep`; `rep` itself is never re-scanned. */
  function ReplaceAll(text: string, pat: string, rep: string): string
    requires pat != []
    decreases |text|
  {
    if text == [] then []
    else if pat <= text then rep + ReplaceAll(text[|pat|..], pat, rep)
    else [text[0]] + ReplaceAll(text[1..], pat, rep)
  }

  /** The stretches of `text` that lie between the occurrences `ReplaceAll`
      replaces (the result of `text.split(pat)`). */
  function Pieces(text: string, pat: string): (r: seq<string>)
    requires pat != []
    ensures |r| >= 1
    ensures r[0] <= text
    decreases |text|
  {
    if text == [] then [[]]
    else if pat <= text then [[]] + Pieces(text[|pat|..], pat)
    else
      var rest := Pieces(text[1..], pat);
      [[text[0]] + rest[0]] + rest[1..]
  }

  /** Joining a list of at least two pieces puts the separator after the first. */
  lemma JoinCons(first: string, rest: seq<string>, sep: string)
    requires |rest| >= 1
    ensures Join([first] + rest, sep) == first + sep + Join(rest, sep)
  {
    assert ([first] + rest)[1..] == rest;
  }

  /** Replacing the pattern by itself changes nothing. */
  lemma {:induction false} ReplaceBySelf(text: string, pat: string)
    requires pat != []
    ensures ReplaceAll(text, pat, pat) == text
    decreases |text|
  {
    if text == [] {
    } else if pat <= text {
      ReplaceBySelf(text[|pat|..], pat);
      assert text == pat + text[|pat|..];
    } else {
      ReplaceBySelf(text[1..], pat);
      assert text == [text[0]] + text[1..];
    }
  }

  /** The pieces with `pat` put back between them are the original text. */
  lemma PiecesJoin(text: string, pat: string)
    requires pat != []
    ensures Join(Pieces(text, pat), pat) == text
  {
    ReplaceAllIsJoin(text, pat, pat);
    ReplaceBySelf(text, pat);
  }

  /** No piece contains the pattern: every occurrence in the text was found. */
  lemma {:induction false} PiecesFree(text: string, pat: string)
    requires pat != []
    ensures forall k :: 0 <= k < |Pieces(text, pat)| ==> !Contains(Pieces(text, pat)[k], pat)
    decreases |text|
  {
    var r := Pieces(text, pat);
    if text == [] {
    } else if pat <= text {
      PiecesFree(text[|pat|..], pat);
      assert forall k :: 1 <= k < |r| ==> r[k] == Pieces(text[|pat|..], pat)[k - 1];
    } else {
      var rest := Pieces(text[1..], pat);
      PiecesFree(text[1..], pat);
      assert forall k :: 1 <= k < |r| ==> r[k] == rest[k];
      FirstPieceFree(text, pat, rest[0]);
    }
  }

  /** A text that does not start with `pat`, cut after a pattern-free stretch
      of its tail, holds no occurrence of `pat` in the part cut off. */
  lemma FirstPieceFree(text: string, pat: string, tail: string)
    requires pat != [] && text != [] && !(pat <= text)
    requires tail <= text[1..] && !Contains(tail, pat)
    ensures !Contains([text[0]] + tail, pat)
  {
    var x := [text[0]] + tail;
    forall i | 0 <= i <= |x| - |pat|
      ensures !(pat <= x[i..])
    {
      if i > 0 {
        assert x[i..] == tail[i - 1..];
      }
    }
  }

  /** Replacing is joining the pieces with `rep` instead of `pat`. */
  lemma {:induction false} ReplaceAllIsJoin(text: string, pat: string, rep: string)
    requires pat != []
    ensures ReplaceAll(text, pat, rep) == Join(Pieces(text, pat), rep)
    decreases |text|
  {
    if text == [] {
    } else if pat <= text {
      var rest := Pieces(text[|pat|..], pat);
      ReplaceAllIsJoin(text[|pat|..], pat, rep);
      assert Pieces(text, pat) == [[]] + rest;
      JoinCons([], rest, rep);
    } else {
      var rest := Pieces(text[1..], pat);
      ReplaceAllIsJoin(text[1..], pat, rep);
      assert Pieces(text, pat) == [[text[0]] + rest[0]] + rest[1..];
      JoinPrepend(text[0], rest, rep);
    }
  }

  /** A stretch without the pattern's first character is copied as it is. */
  lemma {:induction false} ReplaceSkipsPlain(pre: string, rest: string, pat: string, rep: string)
    requires pat != [] && pat[0] !in pre
    ensures ReplaceAll(pre + rest, pat, rep) == pre + ReplaceAll(rest, pat, rep)
    decreases |pre|
  {
    if pre != [] {
      var t := pre + rest;
      assert t[0] == pre[0] != pat[0];
      assert t[1..] == pre[1..] + rest;
      ReplaceSkipsPlain(pre[1..], rest, pat, rep);
      assert pre == [pre[0]] + pre[1..];
    } else {
      assert pre + rest == rest;
    }
  }

  /** The pattern alone is replaced by `rep`. */
  lemma ReplaceWhole(pat: string, rep: string)
    requires pat != []
    ensures ReplaceAll(pat, pat, rep) == rep
  {
    assert pat[|pat|..] == [];
  }

  /** Text in which the pattern never occurs comes back unchanged. */
  lemma {:induction false} ReplaceAbsent(text: string, pat: string, rep: string)
    requires pat != []
    requires !Contains(text, pat)
    ensures ReplaceAll(text, pat, rep) == text
    decreases |text|
  {
    if text != [] {
      assert !(pat <= text) by {
        assert text[0..] == text;
      }
      assert !Contains(text[1..], pat) by {
        forall i | 0 <= i <= |text[1..]| - |pat|
          ensures !(pat <= text[1..][i..])
        {
          assert text[1..][i..] == text[i + 1..];
        }
      }
      ReplaceAbsent(text[1..], pat, rep);
      assert text == [text[0]] + text[1..];
    }
  }

  // ---------------------------------------------------------------------------
  // Ordering

  /** `a < b` on Python strings: code point by code point, a proper prefix first. */
  predicate Below(a: string, b: string)
    decreases |a|
  {
    if a == [] then b != []
    else if b == [] then false
    else if a[0] == b[0] then Below(a[1..], b[1..])
    else a[0] < b[0]
  }

  lemma {:induction false} BelowIrreflexive(a: string)
    ensures !Below(a, a)
    decreases |a|
  {
    if a != [] {
      BelowIrreflexive(a[1..]);
    }
  }

  lemma {:induction false} BelowTransitive(a: string, b: string, c: string)
    requires Below(a, b) && Below(b, c)
    ensures Below(a, c)
    decreases |a|
  {
    if a != [] && a[0] == b[0] && b[0] == c[0] {
      BelowTransitive(a[1..], b[1..], c[1..]);
    }
  }

  lemma {:induction false} BelowTotal(a: string, b: string)
    requires a != b
    ensures Below(a, b) || Below(b, a)
    decreases |a|
  {
    if a != [] && b != [] && a[0] == b[0] {
      assert a == [a[0]] + a[1..] && b == [b[0]] + b[1..];
      BelowTotal(a[1..], b[1..]);
    }
  }

  /** `m` sorts before every other member of `s`. */
  predicate IsLeast(m: string, s: set<string>)
  {
    m in s && forall y :: y in s && y != m ==> Below(m, y)
  }

  /** A finite non-empty set of strings has a least member. */
  lemma {:induction false} LeastExists(s: set<string>)
    requires s != {}
    ensures exists m :: IsLeast(m, s)
    decreases |s|
  {
    var x :| x in s;
    if s == {x} {
      assert IsLeast(x, s);
    } else {
      LeastExists(s - {x});
      var m :| IsLeast(m, s - {x});
      if Below(x, m) {
        forall y | y in s && y != x
          ensures Below(x, y)
        {
          if y != m {
            BelowTransitive(x, m, y);
          }
        }
        assert IsLeast(x, s);
      } else {
        BelowTotal(x, m);
        assert IsLeast(m, s);
      }
    }
  }

  /** At most one member is least. */
  lemma LeastUnique(s: set<string>)
    ensures forall m1, m2 :: IsLeast(m1, s) && IsLeast(m2, s) ==> m1 == m2
  {
    forall m1, m2 | IsLeast(m1, s) && IsLeast(m2, s)
      ensures m1 == m2
    {
      if m1 != m2 {
        BelowTransitive(m1, m2, m1);
        BelowIrreflexive(m1);
      }
    }
  }

  /** `sorted(s)`: each member once, in increasing order. */
  function SortedNames(s: set<string>): (r: seq<string>)
    ensures |r| == |s|
    ensures forall x :: x in r <==> x in s
    ensures forall i, j :: 0 <= i < j < |r| ==> Below(r[i], r[j])
    decreases |s|
  {
    if s == {} then []
    else
      LeastExists(s);
      LeastUnique(s);
      var m :| IsLeast(m, s);
      [m] + SortedNames(s - {m})
  }
}
