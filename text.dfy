/** The string operations the use cases build their text from: Kotlin's
    `joinToString`, `take`, `uppercase`, string templates of nullable values and
    of numbers. */
module Text {
  import opened Wrappers

  /** `x` occurs in `s` as a contiguous block. */
  predicate IsInfix(x: string, s: string) {
    exists k :: 0 <= k <= |s| && x <= s[k..]
  }

  lemma InfixAt(x: string, s: string, k: int)
    requires 0 <= k <= |s| - |x| && s[k..k + |x|] == x
    ensures IsInfix(x, s)
  {
    assert x <= s[k..];
  }

  /** What ends an occurrence is an occurrence too. */
  lemma InfixDropFront(p: string, x: string, s: string)
    requires IsInfix(p + x, s)
    ensures IsInfix(x, s)
  {
    var k :| 0 <= k <= |s| && p + x <= s[k..];
    assert x <= s[k + |p|..] by {
      forall i | 0 <= i < |x|
        ensures s[k + |p| + i] == x[i]
      {
        assert (p + x)[|p| + i] == x[i];
        assert s[k..][|p| + i] == s[k + |p| + i];
      }
    }
  }

  /** An occurrence inside `b` is still an occurrence once something is put in front
      of `b` or after it. */
  lemma {:induction false} InfixExtend(x: string, a: string, b: string, c: string)
    requires IsInfix(x, b)
    ensures IsInfix(x, a + b + c)
  {
    var k :| 0 <= k <= |b| && x <= b[k..];
    var s := a + b + c;
    assert s[|a| + k..] == b[k..] + c;
    assert x <= s[|a| + k..];
  }

  /** Kotlin's `xs.joinToString(sep)`: the elements separated by `sep`, nothing before
      the first or after the last. */
  function Join(xs: seq<string>, sep: string): string
  {
    if |xs| == 0 then ""
    else if |xs| == 1 then xs[0]
    else xs[0] + sep + Join(xs[1..], sep)
  }

  /** Every element of a joined list occurs verbatim in the joined text. */
  lemma {:induction false} JoinHasElement(xs: seq<string>, sep: string, i: nat)
    requires i < |xs|
    ensures IsInfix(xs[i], Join(xs, sep))
  {
    if |xs| == 1 {
      InfixAt(xs[0], Join(xs, sep), 0);
    } else if i == 0 {
      assert Join(xs, sep)[0..|xs[0]|] == xs[0];
      InfixAt(xs[0], Join(xs, sep), 0);
    } else {
      JoinHasElement(xs[1..], sep, i - 1);
      InfixExtend(xs[i], xs[0] + sep, Join(xs[1..], sep), "");
      assert xs[0] + sep + Join(xs[1..], sep) + "" == Join(xs, sep);
    }
  }

  /** Kotlin's `s.split(c)` for one separator character: the pieces between the
      separators, always at least one. */
  function SplitOn(s: string, c: char): (r: seq<string>)
    ensures |r| >= 1
    decreases |s|
  {
    if |s| == 0 then [""]
    else
      var rest := SplitOn(s[1..], c);
      if s[0] == c then [""] + rest else [[s[0]] + rest[0]] + rest[1..]
  }

  /** Text without the separator only extends the first piece. */
  lemma {:induction false} SplitOnPrefix(x: string, s: string, c: char)
    requires c !in x
    ensures SplitOn(x + s, c) == [x + SplitOn(s, c)[0]] + SplitOn(s, c)[1..]
    decreases |x|
  {
    if |x| > 0 {
      assert (x + s)[1..] == x[1..] + s;
      SplitOnPrefix(x[1..], s, c);
      assert [x[0]] + (x[1..] + SplitOn(s, c)[0]) == x + SplitOn(s, c)[0];
    } else {
      var r := SplitOn(s, c);
      assert x + s == s;
      assert x + r[0] == r[0];
      assert [r[0]] + r[1..] == r;
    }
  }

  /** Splitting a joined list at its one-character separator gives the list back,
      as long as no element contains the separator. */
  lemma {:induction false} SplitJoin(xs: seq<string>, c: char)
    requires |xs| >= 1
    requires forall i :: 0 <= i < |xs| ==> c !in xs[i]
    ensures SplitOn(Join(xs, [c]), c) == xs
  {
    if |xs| == 1 {
      SplitOnPrefix(xs[0], "", c);
      assert xs[0] + "" == xs[0];
    } else {
      var rest := Join(xs[1..], [c]);
      SplitJoin(xs[1..], c);
      assert SplitOn([c] + rest, c) == [""] + SplitOn(rest, c);
      assert Join(xs, [c]) == xs[0] + ([c] + rest);
      SplitOnPrefix(xs[0], [c] + rest, c);
      assert xs[0] + "" == xs[0];
      assert [xs[0]] + xs[1..] == xs;
    }
  }

  /** `x` is an occurrence inside `y`, and `y` one inside `z`. */
  lemma InfixTrans(x: string, y: string, z: string)
    requires IsInfix(x, y) && IsInfix(y, z)
    ensures IsInfix(x, z)
  {
    var j :| 0 <= j <= |y| && x <= y[j..];
    var k :| 0 <= k <= |z| && y <= z[k..];
    forall i | 0 <= i < |x|
      ensures z[k + j + i] == x[i]
    {
      assert x[i] == y[j..][i] == y[j + i];
      assert y[j + i] == z[k..][j + i];
    }
    assert x <= z[k + j..];
  }

  /** Joining two non-empty lists one after the other puts one separator between
      them. */
  lemma {:induction false} JoinAppend(a: seq<string>, b: seq<string>, sep: string)
    requires |a| >= 1 && |b| >= 1
    ensures Join(a + b, sep) == Join(a, sep) + sep + Join(b, sep)
  {
    if |a| == 1 {
      assert (a + b)[1..] == b;
    } else {
      assert (a + b)[1..] == a[1..] + b;
      JoinAppend(a[1..], b, sep);
    }
  }

  /** A contiguous run of elements is joined into a contiguous block of the joined
      text. */
  lemma JoinInfixBlock(p: seq<string>, d: seq<string>, q: seq<string>, sep: string)
    requires |d| >= 1
    ensures IsInfix(Join(d, sep), Join(p + d + q, sep))
  {
    var jd := Join(d, sep);
    InfixAt(jd, jd, 0);
    var before := if |p| == 0 then "" else Join(p, sep) + sep;
    var after := if |q| == 0 then "" else sep + Join(q, sep);
    if |q| > 0 {
      JoinAppend(d, q, sep);
    } else {
      assert d + q == d;
    }
    assert Join(d + q, sep) == jd + after;
    if |p| > 0 {
      JoinAppend(p, d + q, sep);
      assert p + d + q == p + (d + q);
    } else {
      assert p + d + q == d + q;
    }
    assert Join(p + d + q, sep) == before + jd + after;
    InfixExtend(jd, before, jd, after);
  }

  // ---------------------------------------------------------------------------
  // trimIndent

  predicate IsLineBreak(ch: char)
  {
    ch == '\n' || ch == '\r'
  }

  predicate NoLineBreak(s: string)
  {
    forall i :: 0 <= i < |s| ==> !IsLineBreak(s[i])
  }

  lemma NoLineBreakConcat(a: string, b: string)
    requires NoLineBreak(a) && NoLineBreak(b)
    ensures NoLineBreak(a + b)
  {
    forall i | 0 <= i < |a + b|
      ensures !IsLineBreak((a + b)[i])
    {
      if i < |a| {
        assert (a + b)[i] == a[i];
      } else {
        assert (a + b)[i] == b[i - |a|];
      }
    }
  }

  /** Kotlin's `Char.isWhitespace()`: the Java whitespace characters and the Unicode
      space, line and paragraph separators. */
  predicate IsWhitespace(ch: char)
  {
    || ch == ' ' || ch == '\t' || ch == '\n' || ch == '\U{000B}' || ch == '\U{000C}' || ch == '\r'
    || ('\U{001C}' <= ch <= '\U{001F}') || ch == '\U{00A0}' || ch == '\U{1680}'
    || ('\U{2000}' <= ch <= '\U{200A}') || ch == '\U{2028}' || ch == '\U{2029}'
    || ch == '\U{202F}' || ch == '\U{205F}' || ch == '\U{3000}'
  }

  /** `isBlank()`: nothing but whitespace. */
  predicate IsBlank(s: string)
  {
    forall i :: 0 <= i < |s| ==> IsWhitespace(s[i])
  }

  /** The number of leading whitespace characters. */
  function IndentWidth(s: string): (n: nat)
    ensures n <= |s|
    ensures forall i :: 0 <= i < n ==> IsWhitespace(s[i])
    ensures n < |s| ==> !IsWhitespace(s[n])
    ensures IsBlank(s) <==> n == |s|
  {
    if |s| == 0 || !IsWhitespace(s[0]) then 0
    else
      var n := 1 + IndentWidth(s[1..]);
      assert forall i :: 1 <= i < |s| ==> s[i] == s[1..][i - 1];
      n
  }

  /** Whitespace in front of a non-whitespace character is the whole indentation. */
  lemma IndentWidthOf(ws: string, rest: string)
    requires IsBlank(ws) && |rest| > 0 && !IsWhitespace(rest[0])
    ensures IndentWidth(ws + rest) == |ws|
  {
    var s := ws + rest;
    assert forall i :: 0 <= i < |ws| ==> s[i] == ws[i];
    assert s[|ws|] == rest[0];
  }

  /** Kotlin's `lines()`: the text cut at every CRLF, LF and CR; always one line at
      least. */
  function Lines(s: string): (r: seq<string>)
    ensures |r| >= 1
    decreases |s|
  {
    if |s| == 0 then [""]
    else if s[0] == '\r' && |s| >= 2 && s[1] == '\n' then [""] + Lines(s[2..])
    else if IsLineBreak(s[0]) then [""] + Lines(s[1..])
    else
      var rest := Lines(s[1..]);
      [[s[0]] + rest[0]] + rest[1..]
  }

  /** Text without a line break only extends the first line. */
  lemma {:induction false} LinesNoBreakPrefix(x: string, s: string)
    requires NoLineBreak(x)
    ensures Lines(x + s) == [x + Lines(s)[0]] + Lines(s)[1..]
    decreases |x|
  {
    if |x| > 0 {
      assert (x + s)[0] == x[0];
      assert (x + s)[1..] == x[1..] + s;
      LinesNoBreakPrefix(x[1..], s);
      assert [x[0]] + (x[1..] + Lines(s)[0]) == x + Lines(s)[0];
    } else {
      var r := Lines(s);
      assert x + s == s;
      assert x + r[0] == r[0];
      assert [r[0]] + r[1..] == r;
    }
  }

  lemma LinesAfterNewline(w: string)
    ensures Lines("\n" + w) == [""] + Lines(w)
  {
    assert ("\n" + w)[0] == '\n';
    assert ("\n" + w)[1..] == w;
  }

  /** Lines without line breaks, joined with LF and followed by an LF, are read back as
      those lines. */
  lemma {:induction false} LinesBlock(k: seq<string>, y: string)
    requires |k| >= 1 && forall i :: 0 <= i < |k| ==> NoLineBreak(k[i])
    ensures Lines(Join(k, "\n") + "\n" + y) == k + Lines(y)
  {
    if |k| == 1 {
      var t := "\n" + y;
      assert Join(k, "\n") + "\n" + y == k[0] + t;
      LinesAfterNewline(y);
      LinesNoBreakPrefix(k[0], t);
      assert Lines(t)[0] == "" && Lines(t)[1..] == Lines(y);
      assert k[0] + "" == k[0];
    } else {
      var rest := Join(k[1..], "\n") + "\n" + y;
      var t := "\n" + rest;
      assert Join(k, "\n") + "\n" + y == k[0] + t;
      LinesAfterNewline(rest);
      LinesNoBreakPrefix(k[0], t);
      LinesBlock(k[1..], y);
      assert Lines(t)[0] == "" && Lines(t)[1..] == k[1..] + Lines(y);
      assert k[0] + "" == k[0];
      assert [k[0]] + (k[1..] + Lines(y)) == k + Lines(y);
    }
  }

  /** `lines()` on a text that starts with CRLF. */
  lemma LinesOfCrLf(s: string)
    requires |s| >= 2 && s[0] == '\r' && s[1] == '\n'
    ensures Lines(s) == [""] + Lines(s[2..])
  {
  }

  /** `lines()` on a text that starts with a lone line break. */
  lemma LinesOfBreak(s: string)
    requires |s| >= 1 && IsLineBreak(s[0]) && !(s[0] == '\r' && |s| >= 2 && s[1] == '\n')
    ensures Lines(s) == [""] + Lines(s[1..])
  {
  }

  /** `lines()` on a text that starts with any other character. */
  lemma LinesOfChar(s: string)
    requires |s| >= 1 && !IsLineBreak(s[0])
    ensures Lines(s) == [[s[0]] + Lines(s[1..])[0]] + Lines(s[1..])[1..]
  {
  }

  /** The lines `lines()` reads from `x` when an LF follows it: a CR at the end of `x`
      joins that LF into one CRLF break. */
  function LinesUpTo(x: string): (r: seq<string>)
    ensures |r| >= 1
    decreases |x|
  {
    if |x| == 0 then [""]
    else if x[0] == '\r' && |x| == 1 then [""]
    else if x[0] == '\r' && x[1] == '\n' then [""] + LinesUpTo(x[2..])
    else if IsLineBreak(x[0]) then [""] + LinesUpTo(x[1..])
    else
      var rest := LinesUpTo(x[1..]);
      [[x[0]] + rest[0]] + rest[1..]
  }

  /** `lines()` and `LinesUpTo` past one leading character. */
  lemma LinesCons(c: char, t: string)
    ensures !IsLineBreak(c) ==> Lines([c] + t) == [[c] + Lines(t)[0]] + Lines(t)[1..]
    ensures IsLineBreak(c) && !(c == '\r' && |t| >= 1 && t[0] == '\n') ==> Lines([c] + t) == [""] + Lines(t)
  {
    var s := [c] + t;
    assert s[0] == c && s[1..] == t;
    if |t| >= 1 {
      assert s[1] == t[0];
    }
  }

  lemma LinesUpToCons(c: char, y: string)
    ensures !IsLineBreak(c) ==> LinesUpTo([c] + y) == [[c] + LinesUpTo(y)[0]] + LinesUpTo(y)[1..]
    ensures IsLineBreak(c) && !(c == '\r' && (|y| == 0 || y[0] == '\n')) ==> LinesUpTo([c] + y) == [""] + LinesUpTo(y)
  {
    var x := [c] + y;
    assert x[0] == c && x[1..] == y;
    if |y| >= 1 {
      assert x[1] == y[0];
    }
  }

  lemma LinesCrLfCons(t: string)
    ensures Lines("\r\n" + t) == [""] + Lines(t)
  {
    var s := "\r\n" + t;
    assert s[0] == '\r' && s[1] == '\n' && s[2..] == t;
    LinesOfCrLf(s);
  }

  lemma LinesUpToCrLfCons(z: string)
    ensures LinesUpTo("\r\n" + z) == [""] + LinesUpTo(z)
  {
    var x := "\r\n" + z;
    assert x[0] == '\r' && x[1] == '\n' && x[2..] == z;
  }

  /** An LF always ends a line, whatever comes before it. */
  lemma {:induction false} LinesAfterBreak(x: string, w: string)
    ensures Lines(x + "\n" + w) == LinesUpTo(x) + Lines(w)
    decreases |x|
  {
    if |x| == 0 {
      assert x + "\n" + w == "\n" + w;
      LinesAfterNewline(w);
    } else if x == "\r" {
      assert x + "\n" + w == "\r\n" + w;
      LinesCrLfCons(w);
    } else if x[0] == '\r' && x[1] == '\n' {
      var z := x[2..];
      LinesAfterBreak(z, w);
      ConsCrLf(x, z, w);
      LinesCrLfCons(z + "\n" + w);
      LinesUpToCrLfCons(z);
    } else {
      var c, y := x[0], x[1..];
      ConsChar(x, c, y, w);
      LinesAfterBreak(y, w);
      assert !(c == '\r' && (|y| == 0 || y[0] == '\n'));
      LinesAfterBreakCons(c, y, w);
    }
  }

  /** The step of `LinesAfterBreak` over a leading character that is not the CR of a
      CRLF. */
  lemma LinesAfterBreakCons(c: char, y: string, w: string)
    requires !(c == '\r' && (|y| == 0 || y[0] == '\n'))
    requires Lines(y + "\n" + w) == LinesUpTo(y) + Lines(w)
    ensures Lines([c] + (y + "\n" + w)) == LinesUpTo([c] + y) + Lines(w)
  {
    var t := y + "\n" + w;
    LinesCons(c, t);
    LinesUpToCons(c, y);
    if !IsLineBreak(c) {
      ExtendFirst([c], Lines([c] + t), Lines(t), LinesUpTo(y), LinesUpTo([c] + y), Lines(w));
    } else {
      if c == '\r' {
        assert t[0] == y[0];
      }
      assert Lines([c] + t) == [""] + (LinesUpTo(y) + Lines(w));
    }
  }

  /** Extending the first of the lines `u` that come before `w` extends the first of
      all the lines. */
  lemma ExtendFirst(p: string, l: seq<string>, t: seq<string>, u: seq<string>, v: seq<string>, w: seq<string>)
    requires |u| >= 1 && t == u + w
    requires l == [p + t[0]] + t[1..]
    requires v == [p + u[0]] + u[1..]
    ensures l == v + w
  {
    assert t[0] == u[0] && t[1..] == u[1..] + w;
  }

  lemma ConsCrLf(x: string, z: string, w: string)
    requires |x| >= 2 && x[0] == '\r' && x[1] == '\n' && z == x[2..]
    ensures x == "\r\n" + z && x + "\n" + w == "\r\n" + (z + "\n" + w)
  {
  }

  lemma ConsChar(x: string, c: char, y: string, w: string)
    requires |x| >= 1 && c == x[0] && y == x[1..]
    ensures x == [c] + y && x + "\n" + w == [c] + (y + "\n" + w)
  {
  }

  /** `minOrNull()` of the indentation widths of the non-blank lines. */
  function MinIndent(ls: seq<string>): (r: Option<nat>)
    ensures r.None? <==> forall i :: 0 <= i < |ls| ==> IsBlank(ls[i])
    ensures r.Some? ==> forall i :: 0 <= i < |ls| && !IsBlank(ls[i]) ==> r.value <= IndentWidth(ls[i])
    ensures r.Some? ==> exists i :: 0 <= i < |ls| && !IsBlank(ls[i]) && r.value == IndentWidth(ls[i])
  {
    if |ls| == 0 then None
    else
      var rest := MinIndent(ls[1..]);
      assert forall i :: 1 <= i < |ls| ==> ls[i] == ls[1..][i - 1];
      if IsBlank(ls[0]) then rest
      else if rest.Some? && rest.value < IndentWidth(ls[0]) then rest
      else Some(IndentWidth(ls[0]))
  }

  /** The indentation `trimIndent` removes from every line: the smallest of the
      non-blank lines, or none. */
  function CommonIndent(ls: seq<string>): nat
  {
    MinIndent(ls).GetOr(0)
  }

  /** Kotlin's `drop(n)`. */
  function Drop(s: string, n: nat): string
  {
    if n >= |s| then "" else s[n..]
  }

  function Drops(ls: seq<string>, n: nat): seq<string>
  {
    seq(|ls|, i requires 0 <= i < |ls| => Drop(ls[i], n))
  }

  /** An end line of `reindent`: left out when blank, otherwise cut by `m`. */
  function KeepEnd(line: string, m: nat): seq<string>
  {
    if IsBlank(line) then [] else [Drop(line, m)]
  }

  /** `reindent`: every line loses `m` characters; the first and the last line are
      left out when blank. */
  function Reindent(ls: seq<string>, m: nat): seq<string>
  {
    if |ls| == 0 then []
    else if |ls| == 1 then KeepEnd(ls[0], m)
    else KeepEnd(ls[0], m) + Drops(ls[1..|ls| - 1], m) + KeepEnd(ls[|ls| - 1], m)
  }

  /** Kotlin's `trimIndent()`. */
  function TrimIndent(s: string): string
  {
    var ls := Lines(s);
    Join(Reindent(ls, CommonIndent(ls)), "\n")
  }

  /** A block of whole lines between two LFs is read back as those lines, with at
      least one line before it and one after it. */
  lemma LinesAround(x: string, k: seq<string>, y: string)
    requires |k| >= 1 && forall i :: 0 <= i < |k| ==> NoLineBreak(k[i])
    ensures Lines(x + "\n" + Join(k, "\n") + "\n" + y) == LinesUpTo(x) + k + Lines(y)
  {
    var w := Join(k, "\n") + "\n" + y;
    assert x + "\n" + Join(k, "\n") + "\n" + y == x + "\n" + w;
    LinesAfterBreak(x, w);
    LinesBlock(k, y);
    assert LinesUpTo(x) + (k + Lines(y)) == LinesUpTo(x) + k + Lines(y);
  }

  lemma DropsAppend(u: seq<string>, v: seq<string>, m: nat)
    ensures Drops(u + v, m) == Drops(u, m) + Drops(v, m)
  {
    assert forall i :: 0 <= i < |u| ==> (u + v)[i] == u[i];
    assert forall i :: |u| <= i < |u| + |v| ==> (u + v)[i] == v[i - |u|];
  }

  lemma Regroup(f: seq<string>, x: seq<string>, y: seq<string>, z: seq<string>, l: seq<string>)
    ensures f + ((x + y) + z) + l == (f + x) + y + (z + l)
  {
  }

  /** The lines strictly between the first and the last of `a + k + b`. */
  lemma MiddleLines(a: seq<string>, k: seq<string>, b: seq<string>)
    requires |a| >= 1 && |b| >= 1
    ensures (a + k + b)[1..|a + k + b| - 1] == a[1..] + k + b[..|b| - 1]
  {
  }

  /** A block of lines strictly inside the list keeps its place through `reindent`. */
  lemma ReindentBlock(a: seq<string>, k: seq<string>, b: seq<string>, m: nat)
    requires |a| >= 1 && |k| >= 1 && |b| >= 1
    ensures Reindent(a + k + b, m)
      == (KeepEnd(a[0], m) + Drops(a[1..], m)) + Drops(k, m) + (Drops(b[..|b| - 1], m) + KeepEnd(b[|b| - 1], m))
  {
    var ls := a + k + b;
    MiddleLines(a, k, b);
    DropsAppend(a[1..] + k, b[..|b| - 1], m);
    DropsAppend(a[1..], k, m);
    assert ls[0] == a[0] && ls[|ls| - 1] == b[|b| - 1];
    assert Reindent(ls, m) == KeepEnd(ls[0], m) + Drops(ls[1..|ls| - 1], m) + KeepEnd(ls[|ls| - 1], m);
    Regroup(KeepEnd(a[0], m), Drops(a[1..], m), Drops(k, m), Drops(b[..|b| - 1], m), KeepEnd(b[|b| - 1], m));
  }

  /** The common indentation is no wider than any non-blank line of the list. */
  lemma CommonIndentBound(a: seq<string>, k: seq<string>, b: seq<string>)
    ensures forall i :: 0 <= i < |k| && !IsBlank(k[i]) ==> CommonIndent(a + k + b) <= IndentWidth(k[i])
  {
    var ls := a + k + b;
    forall i | 0 <= i < |k| && !IsBlank(k[i])
      ensures CommonIndent(ls) <= IndentWidth(k[i])
    {
      assert ls[|a| + i] == k[i];
    }
  }

  /** A block of whole lines in the middle of a text comes out of `trimIndent` as those
      same lines, one after the other, each with the common indentation cut; that
      indentation is no wider than any non-blank line of the block. */
  lemma TrimIndentKeepsBlock(x: string, k: seq<string>, y: string)
    requires |k| >= 1 && forall i :: 0 <= i < |k| ==> NoLineBreak(k[i])
    ensures var s := x + "\n" + Join(k, "\n") + "\n" + y;
      && (forall i :: 0 <= i < |k| && !IsBlank(k[i]) ==> CommonIndent(Lines(s)) <= IndentWidth(k[i]))
      && IsInfix(Join(Drops(k, CommonIndent(Lines(s))), "\n"), TrimIndent(s))
  {
    var s := x + "\n" + Join(k, "\n") + "\n" + y;
    LinesAround(x, k, y);
    var a, b := LinesUpTo(x), Lines(y);
    var m := CommonIndent(a + k + b);
    CommonIndentBound(a, k, b);
    ReindentBlock(a, k, b, m);
    var p := KeepEnd(a[0], m) + Drops(a[1..], m);
    var q := Drops(b[..|b| - 1], m) + KeepEnd(b[|b| - 1], m);
    JoinInfixBlock(p, Drops(k, m), q, "\n");
  }

  /** `n` spaces. */
  function Spaces(n: nat): (r: string)
    ensures |r| == n
  {
    seq(n, _ => ' ')
  }

  /** Spaces are blank and break no line. */
  lemma SpacesBlank(n: nat)
    ensures IsBlank(Spaces(n)) && NoLineBreak(Spaces(n))
  {
  }

  /** The joined text around one element strictly inside the list. */
  lemma JoinAround(t: seq<string>, j: nat, sep: string)
    requires 0 < j < |t| - 1
    ensures Join(t, sep) == Join(t[..j], sep) + sep + t[j] + sep + Join(t[j + 1..], sep)
  {
    var rest := [t[j]] + t[j + 1..];
    assert t == t[..j] + rest;
    JoinAppend(t[..j], rest, sep);
    assert rest[1..] == t[j + 1..];
  }

  /** Text put in front of a joined list lands in front of its first element. */
  lemma JoinIndentFirst(p: string, xs: seq<string>, sep: string)
    requires |xs| >= 1
    ensures p + Join(xs, sep) == Join([p + xs[0]] + xs[1..], sep)
  {
    var ys := [p + xs[0]] + xs[1..];
    if |xs| > 1 {
      assert ys[1..] == xs[1..];
    }
  }

  /** Cutting `m` of `n` leading spaces leaves the other `n - m`. */
  lemma DropSpaces(n: nat, x: string, m: nat)
    requires m <= n && |x| > 0
    ensures Drop(Spaces(n) + x, m) == Spaces(n - m) + x
  {
    var s := Spaces(n) + x;
    assert s[m..] == Spaces(n - m) + x by {
      forall i | 0 <= i < |s| - m
        ensures s[m..][i] == (Spaces(n - m) + x)[i]
      {
        if i < n - m {
          assert s[m + i] == ' ';
        } else {
          assert s[m + i] == x[i - (n - m)];
        }
      }
    }
  }

  /** Cutting `m` columns from a block whose first line carries `n` spaces of extra
      indentation cuts them from those spaces, when only that line may lose any. */
  lemma DropsIndented(n: nat, xs: seq<string>, m: nat)
    requires |xs| >= 1 && m <= n && (|xs| >= 2 ==> m == 0)
    requires forall i :: 0 <= i < |xs| ==> |xs[i]| > 0
    ensures Join(Drops([Spaces(n) + xs[0]] + xs[1..], m), "\n") == Spaces(n - m) + Join(xs, "\n")
  {
    var k := [Spaces(n) + xs[0]] + xs[1..];
    var e := [Spaces(n - m) + xs[0]] + xs[1..];
    assert Drops(k, m) == e by {
      DropSpaces(n, xs[0], m);
      forall i | 1 <= i < |k|
        ensures Drop(k[i], m) == e[i]
      {
        assert k[i] == xs[i] == e[i];
      }
    }
    JoinIndentFirst(Spaces(n - m), xs, "\n");
  }

  /** The indentation `trimIndent` cuts from a template whose line `j` holds the
      indented block `xs`: no more than that line's `n` spaces, and nothing when the
      block has a second line, which starts with no whitespace. */
  lemma CommonIndentOfBlock(t: seq<string>, j: nat, n: nat, xs: seq<string>)
    requires 0 < j < |t| - 1 && t[j] == Spaces(n) + Join(xs, "\n")
    requires |xs| >= 1
    requires forall i :: 0 <= i < |xs| ==> NoLineBreak(xs[i]) && |xs[i]| > 0 && !IsWhitespace(xs[i][0])
    ensures CommonIndent(Lines(Join(t, "\n"))) <= n
    ensures |xs| >= 2 ==> CommonIndent(Lines(Join(t, "\n"))) == 0
    ensures IsInfix(Join(Drops([Spaces(n) + xs[0]] + xs[1..], CommonIndent(Lines(Join(t, "\n")))), "\n"),
                    TrimIndent(Join(t, "\n")))
  {
    var k := [Spaces(n) + xs[0]] + xs[1..];
    JoinIndentFirst(Spaces(n), xs, "\n");
    JoinAround(t, j, "\n");
    var x := Join(t[..j], "\n");
    var y := Join(t[j + 1..], "\n");
    assert Join(t, "\n") == x + "\n" + Join(k, "\n") + "\n" + y;
    SpacesBlank(n);
    NoLineBreakConcat(Spaces(n), xs[0]);
    assert forall i :: 0 <= i < |k| ==> NoLineBreak(k[i]);
    TrimIndentKeepsBlock(x, k, y);
    IndentWidthOf(Spaces(n), xs[0]);
    assert !IsBlank(k[0]);
    if |xs| >= 2 {
      assert k[1] == xs[1] && IndentWidth(k[1]) == 0;
    }
  }

  /** A line of an indented template holding the lines `xs`, none of which has a line
      break or starts with whitespace, comes out of `trimIndent` with at most its own
      `n` spaces of indentation cut. With two lines or more the second has no
      indentation, so nothing at all is cut from any line. The lines themselves are
      always found whole in the trimmed text. */
  lemma TrimIndentKeepsLines(t: seq<string>, j: nat, n: nat, xs: seq<string>)
    requires 0 < j < |t| - 1 && t[j] == Spaces(n) + Join(xs, "\n")
    requires |xs| >= 1
    requires forall i :: 0 <= i < |xs| ==> NoLineBreak(xs[i]) && |xs[i]| > 0 && !IsWhitespace(xs[i][0])
    ensures CommonIndent(Lines(Join(t, "\n"))) <= n
    ensures |xs| >= 2 ==> CommonIndent(Lines(Join(t, "\n"))) == 0
    ensures IsInfix(Spaces(n - CommonIndent(Lines(Join(t, "\n")))) + Join(xs, "\n"), TrimIndent(Join(t, "\n")))
    ensures IsInfix(Join(xs, "\n"), TrimIndent(Join(t, "\n")))
  {
    var m := CommonIndent(Lines(Join(t, "\n")));
    CommonIndentOfBlock(t, j, n, xs);
    DropsIndented(n, xs, m);
    InfixDropFront(Spaces(n - m), Join(xs, "\n"), TrimIndent(Join(t, "\n")));
  }

  /** A single indented template line whose text starts with no whitespace and has no
      line break survives `trimIndent` whole, whatever indentation is cut. */
  lemma TrimIndentKeepsLine(t: seq<string>, j: nat, n: nat, body: string)
    requires 0 < j < |t| - 1 && t[j] == Spaces(n) + body
    requires NoLineBreak(body) && |body| > 0 && !IsWhitespace(body[0])
    ensures IsInfix(body, TrimIndent(Join(t, "\n")))
  {
    assert Join([body], "\n") == body;
    TrimIndentKeepsLines(t, j, n, [body]);
  }

  /** The joined text ends with the last element. */
  lemma JoinLast(xs: seq<string>, sep: string)
    requires |xs| >= 2
    ensures Join(xs, sep) == Join(xs[..|xs| - 1], sep) + sep + xs[|xs| - 1]
  {
    assert xs == xs[..|xs| - 1] + [xs[|xs| - 1]];
    JoinAppend(xs[..|xs| - 1], [xs[|xs| - 1]], sep);
  }

  /** `s` ends with `x`. */
  predicate EndsWith(s: string, x: string)
  {
    |x| <= |s| && s[|s| - |x|..] == x
  }

  lemma EndsWithPrepend(p: string, s: string, x: string)
    requires EndsWith(s, x)
    ensures EndsWith(p + s, x)
  {
    assert (p + s)[|p + s| - |x|..] == s[|s| - |x|..];
  }

  lemma EndsWithAppend(s: string, x: string, t: string)
    requires EndsWith(s, x)
    ensures EndsWith(s + t, x + t)
  {
    assert (s + t)[|s + t| - |x + t|..] == s[|s| - |x|..] + t;
  }

  /** A joined list ends with its last element. */
  lemma JoinEndsWithLast(xs: seq<string>, sep: string)
    requires |xs| >= 1
    ensures EndsWith(Join(xs, sep), xs[|xs| - 1])
  {
    var last := xs[|xs| - 1];
    if |xs| >= 2 {
      JoinLast(xs, sep);
      assert EndsWith(last, last);
      EndsWithPrepend(Join(xs[..|xs| - 1], sep) + sep, last, last);
    } else {
      assert Join(xs, sep) == last;
    }
  }

  /** Whatever holds a joined list holds each of its elements. */
  lemma JoinElementsInfix(xs: seq<string>, sep: string, s: string)
    requires IsInfix(Join(xs, sep), s)
    ensures forall i :: 0 <= i < |xs| ==> IsInfix(xs[i], s)
  {
    forall i | 0 <= i < |xs|
      ensures IsInfix(xs[i], s)
    {
      JoinHasElement(xs, sep, i);
      InfixTrans(xs[i], Join(xs, sep), s);
    }
  }

  /** Lines without line breaks, joined by a separator without any, make one line. */
  lemma {:induction false} JoinNoLineBreak(xs: seq<string>, sep: string)
    requires NoLineBreak(sep)
    requires forall i :: 0 <= i < |xs| ==> NoLineBreak(xs[i])
    ensures NoLineBreak(Join(xs, sep))
  {
    if |xs| > 1 {
      JoinNoLineBreak(xs[1..], sep);
      NoLineBreakConcat(xs[0], sep);
      NoLineBreakConcat(xs[0] + sep, Join(xs[1..], sep));
    }
  }

  /** Kotlin's `s.take(n)`: the first `n` characters, or all of them when there are
      fewer. */
  function Take(s: string, n: nat): (r: string)
    ensures |r| <= n && |r| <= |s|
    ensures r == s[..|r|]
    ensures |s| <= n ==> r == s
  {
    if |s| <= n then s else s[..n]
  }

  /** A Kotlin string template `"$x"` of a nullable string: `null` is rendered as the
      four letters "null". */
  function Show(x: Option<string>): (r: string)
    ensures x.Some? ==> r == x.value
    ensures x.None? ==> r == "null"
  {
    match x
    case Some(s) => s
    case None => "null"
  }

  function DigitChar(d: nat): (ch: char)
    requires d < 10
    ensures '0' <= ch <= '9'
  {
    ('0' as int + d) as char
  }

  /** Decimal rendering of a natural number, most significant digit first. */
  function NatToString(n: nat): (r: string)
    ensures |r| >= 1
    ensures forall i :: 0 <= i < |r| ==> '0' <= r[i] <= '9'
    decreases n
  {
    if n < 10 then [DigitChar(n)] else NatToString(n / 10) + [DigitChar(n % 10)]
  }

  /** The number a string of decimal digits denotes. */
  function DigitsValue(s: string): nat
    requires forall i :: 0 <= i < |s| ==> '0' <= s[i] <= '9'
  {
    if |s| == 0 then 0
    else DigitsValue(s[..|s| - 1]) * 10 + (s[|s| - 1] as int - '0' as int)
  }

  /** Reading the rendered digits back gives the number: the rendering is decimal. */
  lemma {:induction false} NatToStringValue(n: nat)
    ensures DigitsValue(NatToString(n)) == n
    decreases n
  {
    if n >= 10 {
      var s := NatToString(n);
      assert s[..|s| - 1] == NatToString(n / 10);
      NatToStringValue(n / 10);
    }
  }

  /** Kotlin's `Int.toString()` / `Long.toString()`. */
  function IntToString(n: int): (r: string)
    ensures NoLineBreak(r) && |r| > 0 && !IsWhitespace(r[0])
    ensures n >= 0 ==> r == NatToString(n)
    ensures n < 0 ==> r == "-" + NatToString(-n)
  {
    if n < 0 then "-" + NatToString(-n) else NatToString(n)
  }

  /** Kotlin's `Double.toString()` for a value below 10^7 in magnitude with at most one
      decimal digit, which Kotlin renders as integer part, a point and that digit
      ("2.5", "3.0"). Larger values, which Kotlin writes in E-notation, and -0.0 are
      outside this rendering. */
  function DoubleToString(x: real): (r: string)
    ensures NoLineBreak(r) && |r| > 0 && !IsWhitespace(r[0])
  {
    if x < 0.0 then "-" + Tenths((-x * 10.0).Floor) else Tenths((x * 10.0).Floor)
  }

  function Tenths(t: int): (r: string)
    requires t >= 0
    ensures NoLineBreak(r) && |r| > 0 && !IsWhitespace(r[0])
  {
    NatToString(t / 10) + "." + NatToString(t % 10)
  }

  lemma DoubleToStringDefaultFactor()
    ensures DoubleToString(2.5) == "2.5"
  {
    assert (2.5 * 10.0).Floor == 25;
  }

  /** Upper case of one character as Kotlin's `uppercase()` gives it, for the
      characters whose upper case is a single ASCII capital: the ASCII letters, the
      dotless i and the long s. Every other character is left as it is. */
  function UpperChar(ch: char): char
  {
    if 'a' <= ch <= 'z' then (ch as int - 32) as char
    else if ch == 'ı' then 'I'
    else if ch == 'ſ' then 'S'
    else ch
  }

  function Upper(s: string): (r: string)
    ensures |r| == |s|
    ensures forall i :: 0 <= i < |s| ==> r[i] == UpperChar(s[i])
  {
    seq(|s|, i requires 0 <= i < |s| => UpperChar(s[i]))
  }

  /** Upper-casing twice is upper-casing once. */
  lemma UpperIdempotent(s: string)
    ensures Upper(Upper(s)) == Upper(s)
  {
  }
}
