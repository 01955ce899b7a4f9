/** The few operations of Python's `str` that the generator relies on:
    `sep.join(...)`, `str.replace` of one character, `str.rsplit(c, 1)`
    (through `LastIndexOf`) and splitting into lines. */
module Strings {

  /** `s` ends with `suffix`. */
  predicate EndsWith(s: string, suffix: string)
  {
    |suffix| <= |s| && s[|s| - |suffix|..] == suffix
  }

  /** Python's `sep.join(xs)`. Defined from the end so that a loop that
      appends one element at a time follows it step by step. */
  function Join(xs: seq<string>, sep: string): string
  {
    if |xs| == 0 then ""
    else if |xs| == 1 then xs[0]
    else Join(xs[..|xs| - 1], sep) + sep + xs[|xs| - 1]
  }

  /** Appending one element to a joined list appends the separator and it. */
  lemma JoinSnoc(xs: seq<string>, x: string, sep: string)
    requires |xs| > 0
    ensures Join(xs + [x], sep) == Join(xs, sep) + sep + x
  {
    assert (xs + [x])[..|xs|] == xs;
  }

  /** Joining unfolds from the front as well as from the back. */
  lemma {:induction false} JoinCons(x: string, xs: seq<string>, sep: string)
    requires |xs| > 0
    ensures Join([x] + xs, sep) == x + sep + Join(xs, sep)
  {
    var ys := [x] + xs;
    if |xs| == 1 {
      assert ys[..1] == [x];
    } else {
      var init := xs[..|xs| - 1];
      assert ys[..|ys| - 1] == [x] + init;
      JoinCons(x, init, sep);
    }
  }

  /** `sep + x` for every `x`, concatenated in order: the reference reading
      of "the head, then each further element preceded by the separator". */
  function PrefixEach(sep: string, xs: seq<string>): string
  {
    if xs == [] then "" else PrefixEach(sep, xs[..|xs| - 1]) + sep + xs[|xs| - 1]
  }

  /** Joining a non-empty list is its head followed by `sep + x` for every
      later element, in order. */
  lemma {:induction false} JoinIsHeadThenPrefixed(x: string, xs: seq<string>, sep: string)
    ensures Join([x] + xs, sep) == x + PrefixEach(sep, xs)
  {
    if xs != [] {
      var init := xs[..|xs| - 1];
      JoinIsHeadThenPrefixed(x, init, sep);
      assert ([x] + xs)[..|xs|] == [x] + init;
    }
  }

  /** Index of the first `c` in `s`, or `|s|` when there is none. */
  function IndexOf(s: string, c: char): (r: nat)
    ensures r <= |s|
    ensures r < |s| ==> s[r] == c
  {
    if s == [] then 0
    else if s[0] == c then 0
    else 1 + IndexOf(s[1..], c)
  }

  /** `IndexOf` finds the first `c`: none comes before it, so it is `|s|`
      exactly when `s` holds no `c`. */
  lemma {:induction false} IndexOfFirst(s: string, c: char)
    ensures forall j :: 0 <= j < IndexOf(s, c) ==> s[j] != c
    ensures IndexOf(s, c) == |s| <==> c !in s
  {
    if s != [] && s[0] != c {
      IndexOfFirst(s[1..], c);
      assert forall j :: 1 <= j < |s| ==> s[j] == s[1..][j - 1];
    }
  }

  /** Index of the last `c` in `s`, or -1 when there is none. */
  function LastIndexOf(s: string, c: char): (r: int)
    ensures -1 <= r < |s|
    ensures r >= 0 ==> s[r] == c
    ensures forall j :: r < j < |s| ==> s[j] != c
  {
    if s == [] then -1
    else if s[|s| - 1] == c then |s| - 1
    else LastIndexOf(s[..|s| - 1], c)
  }

  /** Python's `s.replace(from, to)` for one-character `from` and `to`. */
  function ReplaceChar(s: string, from: char, to: char): (r: string)
    ensures |r| == |s|
    ensures forall i :: 0 <= i < |s| ==> r[i] == if s[i] == from then to else s[i]
  {
    if s == [] then [] else [if s[0] == from then to else s[0]] + ReplaceChar(s[1..], from, to)
  }

  /** Splitting on `c`: the pieces between the occurrences of `c`, in order
      (Python's `s.split(c)`; there is always at least one piece). */
  function Split(s: string, c: char): (r: seq<string>)
    ensures |r| > 0
    decreases |s|
  {
    var i := IndexOf(s, c);
    if i == |s| then [s] else [s[..i]] + Split(s[i + 1..], c)
  }

  /** The first `c` of `a + [c] + b`, when `a` has none, is the one after `a`. */
  lemma {:induction false} IndexOfAfter(a: string, c: char, b: string)
    requires c !in a
    ensures IndexOf(a + [c] + b, c) == |a|
  {
    if a != [] {
      assert (a + [c] + b)[1..] == a[1..] + [c] + b;
      IndexOfAfter(a[1..], c, b);
    }
  }

  /** Splitting on `c` undoes joining with `c`, when no piece contains `c`. */
  lemma {:induction false} SplitJoin(xs: seq<string>, c: char)
    requires |xs| > 0
    requires forall k :: 0 <= k < |xs| ==> c !in xs[k]
    ensures Split(Join(xs, [c]), c) == xs
  {
    if |xs| == 1 {
      assert IndexOf(xs[0], c) == |xs[0]|;
    } else {
      var rest := xs[1..];
      assert xs == [xs[0]] + rest;
      JoinCons(xs[0], rest, [c]);
      var s := Join(xs, [c]);
      assert s == xs[0] + [c] + Join(rest, [c]);
      IndexOfAfter(xs[0], c, Join(rest, [c]));
      assert s[..|xs[0]|] == xs[0];
      assert s[|xs[0]| + 1..] == Join(rest, [c]);
      SplitJoin(rest, c);
    }
  }

  /** A `c` inside `a` is found before anything appended to `a`. */
  lemma {:induction false} IndexOfPrefix(a: string, c: char, b: string)
    requires IndexOf(a, c) < |a|
    ensures IndexOf(a + b, c) == IndexOf(a, c)
  {
    if a[0] != c {
      assert (a + b)[1..] == a[1..] + b;
      IndexOfPrefix(a[1..], c, b);
    }
  }

  /** When `a` holds no `c`, the `c` that follows it ends the first piece. */
  lemma SplitAfterWhole(a: string, c: char, r: string)
    requires IndexOf(a, c) == |a|
    requires |r| > 0 && r[0] == c
    ensures Split(a + r, c) == [a] + Split(r[1..], c)
  {
    var s := a + r;
    IndexOfFirst(a, c);
    assert s == a + [c] + r[1..];
    IndexOfAfter(a, c, r[1..]);
    assert s[..|a|] == a;
    assert s[|a| + 1..] == r[1..];
  }

  /** When `a` holds a `c`, the first piece of `a + rest` is the first piece
      of `a`. */
  lemma SplitInside(a: string, c: char, rest: string)
    requires IndexOf(a, c) < |a|
    ensures Split(a + rest, c) == [a[..IndexOf(a, c)]] + Split(a[IndexOf(a, c) + 1..] + rest, c)
  {
    var s, i := a + rest, IndexOf(a, c);
    IndexOfPrefix(a, c, rest);
    assert s[..i] == a[..i];
    assert s[i + 1..] == a[i + 1..] + rest;
  }

  /** One step of `SplitAppend`: when `a` holds a `c`, the claim for `a`
      follows from the claim for what comes after that `c`. */
  lemma SplitAppendStep(a: string, c: char, r: string)
    requires IndexOf(a, c) < |a|
    requires |r| > 0
    requires Split(a[IndexOf(a, c) + 1..] + r, c) == Split(a[IndexOf(a, c) + 1..], c) + Split(r[1..], c)
    ensures Split(a + r, c) == Split(a, c) + Split(r[1..], c)
  {
    var i := IndexOf(a, c);
    SplitInside(a, c, r);
    var first, pt, pb := [a[..i]], Split(a[i + 1..], c), Split(r[1..], c);
    assert Split(a, c) == first + pt;
    assert first + (pt + pb) == (first + pt) + pb;
  }

  /** Splitting a text made of two parts glued by `c` splits each part:
      `r` is the second part with the `c` in front of it. */
  lemma {:induction false} SplitAppend(a: string, c: char, r: string)
    requires |r| > 0 && r[0] == c
    ensures Split(a + r, c) == Split(a, c) + Split(r[1..], c)
    decreases |a|
  {
    var i := IndexOf(a, c);
    if i == |a| {
      SplitAfterWhole(a, c, r);
      assert Split(a, c) == [a];
    } else {
      SplitAppend(a[i + 1..], c, r);
      SplitAppendStep(a, c, r);
    }
  }

  /** Joining two non-empty lists is joining each and gluing with `sep`. */
  lemma {:induction false} JoinAppend(xs: seq<string>, ys: seq<string>, sep: string)
    requires |xs| > 0 && |ys| > 0
    ensures Join(xs + ys, sep) == Join(xs, sep) + sep + Join(ys, sep)
    decreases |ys|
  {
    if |ys| == 1 {
      JoinSnoc(xs, ys[0], sep);
      assert xs + ys == xs + [ys[0]];
    } else {
      var init, last := ys[..|ys| - 1], ys[|ys| - 1];
      JoinAppend(xs, init, sep);
      assert xs + ys == (xs + init) + [last];
      JoinSnoc(xs + init, last, sep);
      JoinSnoc(init, last, sep);
      assert ys == init + [last];
    }
  }

  // ----------------------------------------------------- textwrap.indent

  /** The ASCII characters Python's `str.strip()` removes. */
  predicate IsSpace(c: char)
  {
    c == ' ' || c == '\t' || c == '\n' || c == '\r' || c == '\U{0B}' || c == '\U{0C}' ||
    c == '\U{1C}' || c == '\U{1D}' || c == '\U{1E}' || c == '\U{1F}'
  }

  /** A line that `line.strip()` leaves empty. */
  predicate IsBlank(line: string)
  {
    forall i :: 0 <= i < |line| ==> IsSpace(line[i])
  }

  function IndentLine(line: string, prefix: string): string
  {
    if IsBlank(line) then line else prefix + line
  }

  function IndentLines(lines: seq<string>, prefix: string): (r: seq<string>)
    ensures |r| == |lines|
    ensures forall i :: 0 <= i < |lines| ==> r[i] == IndentLine(lines[i], prefix)
  {
    seq(|lines|, i requires 0 <= i < |lines| => IndentLine(lines[i], prefix))
  }

  /** `textwrap.indent(text, prefix)`: `prefix` in front of every line that
      is not blank. */
  function Indent(text: string, prefix: string): string
  {
    Join(IndentLines(Split(text, '\n'), prefix), "\n")
  }

  /** Indenting works line by line: indenting two texts glued by a newline
      is gluing the two indented texts. */
  lemma IndentAppend(a: string, b: string, prefix: string)
    ensures Indent(a + "\n" + b, prefix) == Indent(a, prefix) + "\n" + Indent(b, prefix)
  {
    assert a + "\n" + b == a + ("\n" + b);
    SplitAppend(a, '\n', "\n" + b);
    assert ("\n" + b)[1..] == b;
    var la, lb := Split(a, '\n'), Split(b, '\n');
    assert IndentLines(la + lb, prefix) == IndentLines(la, prefix) + IndentLines(lb, prefix);
    JoinAppend(IndentLines(la, prefix), IndentLines(lb, prefix), "\n");
  }

  /** Every text of `xs` indented on its own. */
  function IndentEach(xs: seq<string>, prefix: string): (r: seq<string>)
    ensures |r| == |xs|
    ensures forall k :: 0 <= k < |xs| ==> r[k] == Indent(xs[k], prefix)
  {
    seq(|xs|, k requires 0 <= k < |xs| => Indent(xs[k], prefix))
  }

  /** The empty text stays empty. */
  lemma IndentEmpty(prefix: string)
    ensures Indent("", prefix) == ""
  {
    assert Split("", '\n') == [""];
    assert IndentLines([""], prefix) == [""];
  }

  /** A map on texts that keeps the empty text and works separately on the
      two sides of a newline works separately on texts that each follow a
      newline. */
  lemma {:induction false} LineWise(f: string -> string, xs: seq<string>)
    requires f("") == ""
    requires forall a, b :: f(a + "\n" + b) == f(a) + "\n" + f(b)
    ensures f(PrefixEach("\n", xs)) == PrefixEach("\n", seq(|xs|, k requires 0 <= k < |xs| => f(xs[k])))
  {
    var ys := seq(|xs|, k requires 0 <= k < |xs| => f(xs[k]));
    if xs != [] {
      var n := |xs| - 1;
      LineWise(f, xs[..n]);
      assert ys[..n] == seq(n, k requires 0 <= k < n => f(xs[..n][k]));
      assert f(PrefixEach("\n", xs)) == f(PrefixEach("\n", xs[..n])) + "\n" + f(xs[n]);
    }
  }

  /** Indenting texts that each follow a newline indents each text on its
      own. */
  lemma IndentPrefixed(xs: seq<string>, prefix: string)
    ensures Indent(PrefixEach("\n", xs), prefix) == PrefixEach("\n", IndentEach(xs, prefix))
  {
    var f := t => Indent(t, prefix);
    IndentEmpty(prefix);
    forall a, b ensures f(a + "\n" + b) == f(a) + "\n" + f(b) {
      IndentAppend(a, b, prefix);
    }
    LineWise(f, xs);
    assert IndentEach(xs, prefix) == seq(|xs|, k requires 0 <= k < |xs| => f(xs[k]));
  }

  /** Four lines, each ended by a newline, split back into the four lines and
      the empty piece after the last newline. */
  lemma SplitFourLines(a: string, b: string, c: string, d: string)
    requires '\n' !in a && '\n' !in b && '\n' !in c && '\n' !in d
    ensures Split(a + "\n" + b + "\n" + c + "\n" + d + "\n", '\n') == [a, b, c, d, ""]
  {
    var nl := "\n";
    assert nl == ['\n'];
    var lines := [a, b, c, d, ""];
    JoinSnoc([a], b, nl);
    assert [a] + [b] == [a, b];
    JoinSnoc([a, b], c, nl);
    assert [a, b] + [c] == [a, b, c];
    JoinSnoc([a, b, c], d, nl);
    assert [a, b, c] + [d] == [a, b, c, d];
    JoinSnoc([a, b, c, d], "", nl);
    assert [a, b, c, d] + [""] == lines;
    var text := a + nl + b + nl + c + nl + d + nl;
    assert Join(lines, nl) == text + "";
    assert text + "" == text;
    assert forall k :: 0 <= k < |lines| ==> '\n' !in lines[k];
    SplitJoin(lines, '\n');
  }

  /** Three lines separated by blank lines, the last one ended by a newline,
      split back into the five lines and the empty piece after the last
      newline. */
  lemma SplitBlankSeparated(a: string, b: string, c: string)
    requires '\n' !in a && '\n' !in b && '\n' !in c
    ensures Split(a + "\n" + "\n" + b + "\n" + "\n" + c + "\n", '\n') == [a, "", b, "", c, ""]
  {
    var nl := "\n";
    assert nl == ['\n'];
    var lines := [a, "", b, "", c, ""];
    JoinSnoc([a], "", nl);
    assert [a] + [""] == [a, ""];
    JoinSnoc([a, ""], b, nl);
    assert [a, ""] + [b] == [a, "", b];
    JoinSnoc([a, "", b], "", nl);
    assert [a, "", b] + [""] == [a, "", b, ""];
    JoinSnoc([a, "", b, ""], c, nl);
    assert [a, "", b, ""] + [c] == [a, "", b, "", c];
    JoinSnoc([a, "", b, "", c], "", nl);
    assert [a, "", b, "", c] + [""] == lines;
    var text := a + nl + nl + b + nl + nl + c + nl;
    assert Join(lines, nl) == a + nl + "" + nl + b + nl + "" + nl + c + nl + "";
    assert Join(lines, nl) == text;
    assert forall k :: 0 <= k < |lines| ==> '\n' !in lines[k];
    SplitJoin(lines, '\n');
  }
}
