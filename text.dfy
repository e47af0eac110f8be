/**
 * The Python string operations the plugin's SQL and settings code relies on,
 * written as functions on `string` (a sequence of Unicode scalar values, as a
 * Python 2 `unicode` is): `str.split()`, `str.split(',')`,
 * `sep.join(...)`, `str.replace(q, q + q)`, `startswith`, `in` between two
 * strings and `"{}".format(int)`, together with the reading side of SQL's
 * doubled-quote escaping, which the quoting helpers are meant to serve.
 */
module Text {
  import opened Wrappers

  // ---------------------------------------------------------------------------
  // Whitespace and str.split() with no argument
  // ---------------------------------------------------------------------------

  /**
   * `c.isspace()` of a Python 2.7 `unicode` character (Unicode 5.2, which
   * still counts U+180E): exactly the characters the argument-less `split()`
   * separates on.
   */
  predicate IsSpace(c: char) {
    || c == ' ' || c == '\t' || c == '\n' || c == '\r' || c == '\U{B}' || c == '\U{C}'
    || ('\U{1C}' <= c <= '\U{1F}') || c == '\U{85}' || c == '\U{A0}' || c == '\U{1680}' || c == '\U{180E}'
    || ('\U{2000}' <= c <= '\U{200A}') || c == '\U{2028}' || c == '\U{2029}'
    || c == '\U{202F}' || c == '\U{205F}' || c == '\U{3000}'
  }

  /** A non-empty run of non-whitespace characters: one element of `s.split()`. */
  predicate IsToken(w: string) {
    w != [] && forall i :: 0 <= i < |w| ==> !IsSpace(w[i])
  }

  /** The length of the run of non-whitespace characters that `s` starts with. */
  function TokenLength(s: string): (n: nat)
    ensures n <= |s|
    ensures forall i :: 0 <= i < n ==> !IsSpace(s[i])
    ensures n < |s| ==> IsSpace(s[n])
  {
    if s == [] || IsSpace(s[0]) then 0 else 1 + TokenLength(s[1..])
  }

  /** `s.split()`: the maximal runs of non-whitespace characters, in order. */
  function Words(s: string): (ws: seq<string>)
    ensures forall i :: 0 <= i < |ws| ==> IsToken(ws[i])
    decreases |s|
  {
    if s == [] then []
    else if IsSpace(s[0]) then Words(s[1..])
    else
      var n := TokenLength(s);
      [s[..n]] + Words(s[n..])
  }

  /** Reference reading of `split()`: the text with every whitespace character deleted. */
  function WithoutSpaces(s: string): string {
    if s == [] then []
    else (if IsSpace(s[0]) then [] else [s[0]]) + WithoutSpaces(s[1..])
  }

  /** The concatenation of a list of strings, `''.join(ws)`. */
  function Concat(ws: seq<string>): string {
    if ws == [] then [] else ws[0] + Concat(ws[1..])
  }

  /** `s` after `s += item` for each item in turn. */
  function Appended(s: string, items: seq<string>): string
    decreases |items|
  {
    if items == [] then s else Appended(s, items[..|items| - 1]) + items[|items| - 1]
  }

  /** Appending the items one at a time adds their concatenation, in order, and nothing else. */
  lemma {:induction false} AppendedIsConcat(s: string, items: seq<string>)
    ensures Appended(s, items) == s + Concat(items)
    decreases |items|
  {
    if items == [] {
      assert s + [] == s;
    } else {
      var n := |items| - 1;
      AppendedIsConcat(s, items[..n]);
      assert items == items[..n] + [items[n]];
      ConcatAppend(items[..n], [items[n]]);
      assert Concat([items[n]]) == items[n] by {
        assert [items[n]][1..] == [];
      }
    }
  }

  /** `x + y` occurs where `x` is directly followed by a text that starts with `y`. */
  lemma AdjacentSubstring(h: string, x: string, y: string, z: string)
    requires y <= z
    ensures IsSubstring(x + y, h + x + z)
  {
    var s := h + x + z;
    assert s[|h|..] == x + z;
  }

  /** `p in s` for a text glued around a piece that contains `p`. */
  lemma SubstringOfMiddle(p: string, a: string, b: string, c: string)
    requires IsSubstring(p, b)
    ensures IsSubstring(p, a + b + c)
  {
    var i :| 0 <= i <= |b| && p <= b[i..];
    var s := a + b + c;
    assert s[|a| + i..] == b[i..] + c;
  }

  lemma {:induction false} ConcatAppend(a: seq<string>, b: seq<string>)
    ensures Concat(a + b) == Concat(a) + Concat(b)
    decreases |a|
  {
    if a == [] {
      assert a + b == b;
    } else {
      assert (a + b)[1..] == a[1..] + b;
      ConcatAppend(a[1..], b);
    }
  }

  lemma {:induction false} WithoutSpacesAppend(a: string, b: string)
    ensures WithoutSpaces(a + b) == WithoutSpaces(a) + WithoutSpaces(b)
    decreases |a|
  {
    if a != [] {
      assert (a + b)[1..] == a[1..] + b;
      WithoutSpacesAppend(a[1..], b);
    } else {
      assert a + b == b;
    }
  }

  lemma {:induction false} WithoutSpacesOfToken(w: string)
    requires forall i :: 0 <= i < |w| ==> !IsSpace(w[i])
    ensures WithoutSpaces(w) == w
    decreases |w|
  {
    if w != [] {
      WithoutSpacesOfToken(w[1..]);
    }
  }

  /** `split()` loses only whitespace: joining its words gives back every other character, in order. */
  lemma {:induction false} WordsKeepEveryOtherCharacter(s: string)
    ensures Concat(Words(s)) == WithoutSpaces(s)
    decreases |s|
  {
    if s == [] {
    } else if IsSpace(s[0]) {
      WordsKeepEveryOtherCharacter(s[1..]);
    } else {
      var n := TokenLength(s);
      assert s == s[..n] + s[n..];
      WithoutSpacesAppend(s[..n], s[n..]);
      WithoutSpacesOfToken(s[..n]);
      WordsKeepEveryOtherCharacter(s[n..]);
      assert Words(s) == [s[..n]] + Words(s[n..]);
      assert Concat(Words(s)) == s[..n] + Concat(Words(s[n..]));
    }
  }

  lemma {:induction false} TokenLengthBeforeSpace(a: string, rest: string)
    requires rest != [] && IsSpace(rest[0])
    ensures TokenLength(a + rest) == TokenLength(a)
    decreases |a|
  {
    if a == [] {
      assert a + rest == rest;
    } else if !IsSpace(a[0]) {
      assert (a + rest)[1..] == a[1..] + rest;
      TokenLengthBeforeSpace(a[1..], rest);
    }
  }

  /** A whitespace character always ends a word: splitting `a c b` splits `a` and `b` separately. */
  lemma {:induction false} WordsAroundSpace(a: string, c: char, b: string)
    requires IsSpace(c)
    ensures Words(a + [c] + b) == Words(a) + Words(b)
    decreases |a|
  {
    var s := a + [c] + b;
    if a == [] {
      assert s[1..] == b;
    } else if IsSpace(a[0]) {
      assert s[1..] == a[1..] + [c] + b;
      WordsAroundSpace(a[1..], c, b);
    } else {
      var n := TokenLength(a);
      assert s == a + ([c] + b);
      TokenLengthBeforeSpace(a, [c] + b);
      assert s[..n] == a[..n];
      assert s[n..] == a[n..] + [c] + b;
      WordsAroundSpace(a[n..], c, b);
    }
  }

  /** A single token splits into itself. */
  lemma WordsOfToken(w: string)
    requires IsToken(w)
    ensures Words(w) == [w]
  {
    assert TokenLength(w) == |w|;
    assert w[..|w|] == w;
  }

  /** Text made only of whitespace has no words. */
  lemma {:induction false} WordsOfBlank(s: string)
    requires forall i :: 0 <= i < |s| ==> IsSpace(s[i])
    ensures Words(s) == []
    decreases |s|
  {
    if s != [] {
      WordsOfBlank(s[1..]);
    }
  }

  // ---------------------------------------------------------------------------
  // str.split(sep) and sep.join(...)
  // ---------------------------------------------------------------------------

  /** `s.split(sep)` for a one-character separator: never empty, `"".split(",") == [""]`. */
  function Split(s: string, sep: char): (parts: seq<string>)
    ensures |parts| >= 1
    ensures forall i :: 0 <= i < |parts| ==> sep !in parts[i]
    decreases |s|
  {
    if s == [] then [[]]
    else
      var rest := Split(s[1..], sep);
      if s[0] == sep then [[]] + rest
      else [[s[0]] + rest[0]] + rest[1..]
  }

  /** `sep.join(parts)`. */
  function Join(parts: seq<string>, sep: string): string {
    if parts == [] then []
    else if |parts| == 1 then parts[0]
    else parts[0] + sep + Join(parts[1..], sep)
  }

  /** Joining the pieces of a split with the same separator restores the text. */
  lemma {:induction false} JoinSplit(s: string, sep: char)
    ensures Join(Split(s, sep), [sep]) == s
    decreases |s|
  {
    if s != [] {
      var rest := Split(s[1..], sep);
      JoinSplit(s[1..], sep);
      if s[0] == sep {
        assert Split(s, sep) == [[]] + rest;
        assert ([[]] + rest)[1..] == rest;
      } else if |rest| == 1 {
        assert Split(s, sep) == [[s[0]] + rest[0]];
      } else {
        var parts := [[s[0]] + rest[0]] + rest[1..];
        assert parts[1..] == rest[1..];
        assert Join(rest, [sep]) == rest[0] + [sep] + Join(rest[1..], [sep]);
      }
    }
  }

  lemma {:induction false} SplitWithoutSeparator(x: string, sep: char)
    requires sep !in x
    ensures Split(x, sep) == [x]
    decreases |x|
  {
    if x != [] {
      SplitWithoutSeparator(x[1..], sep);
      assert [x[0]] + x[1..] == x;
    }
  }

  lemma {:induction false} SplitAtSeparator(x: string, sep: char, y: string)
    requires sep !in x
    ensures Split(x + [sep] + y, sep) == [x] + Split(y, sep)
    decreases |x|
  {
    var s := x + [sep] + y;
    if x == [] {
      assert s[1..] == y;
    } else {
      assert s[1..] == x[1..] + [sep] + y;
      SplitAtSeparator(x[1..], sep, y);
      assert [x[0]] + x[1..] == x;
    }
  }

  /** Splitting a join gives back the pieces, provided there is at least one and none holds the separator. */
  lemma {:induction false} SplitJoin(parts: seq<string>, sep: char)
    requires |parts| >= 1
    requires forall i :: 0 <= i < |parts| ==> sep !in parts[i]
    ensures Split(Join(parts, [sep]), sep) == parts
    decreases |parts|
  {
    if |parts| == 1 {
      SplitWithoutSeparator(parts[0], sep);
    } else {
      SplitJoin(parts[1..], sep);
      SplitAtSeparator(parts[0], sep, Join(parts[1..], [sep]));
      assert [parts[0]] + parts[1..] == parts;
    }
  }

  // ---------------------------------------------------------------------------
  // Quote doubling and the SQL reading of a quoted token
  // ---------------------------------------------------------------------------

  /** `s.replace(q, q + q)`. */
  function Doubled(s: string, q: char): (d: string)
    ensures |d| >= |s|
  {
    if s == [] then []
    else (if s[0] == q then [q, q] else [s[0]]) + Doubled(s[1..], q)
  }

  /** Doubling leaves a text without the quote character unchanged. */
  lemma {:induction false} DoubledWithout(s: string, q: char)
    requires q !in s
    ensures Doubled(s, q) == s
    decreases |s|
  {
    if s != [] {
      DoubledWithout(s[1..], q);
      assert [s[0]] + s[1..] == s;
    }
  }

  /**
   * How SQL reads the body of a token delimited by `close` whose opening
   * delimiter has already been read: a doubled `close` stands for one `close`
   * character, a single `close` ends the token. The result is the body and
   * the text after the closing delimiter, or None when the token never closes.
   */
  function ReadQuoted(s: string, close: char): Option<(string, string)>
    decreases |s|
  {
    if s == [] then None
    else if s[0] == close then
      if |s| >= 2 && s[1] == close then
        match ReadQuoted(s[2..], close)
        case None => None
        case Some(r) => Some(([close] + r.0, r.1))
      else Some(([], s[1..]))
    else
      match ReadQuoted(s[1..], close)
      case None => None
      case Some(r) => Some(([s[0]] + r.0, r.1))
  }

  /**
   * Doubling is the escape that `ReadQuoted` undoes: the body read back is
   * exactly the original text, and reading stops exactly at the closing
   * delimiter, whatever the text contains.
   */
  lemma {:induction false} ReadDoubled(x: string, q: char, rest: string)
    requires rest == [] || rest[0] != q
    ensures ReadQuoted(Doubled(x, q) + [q] + rest, q) == Some((x, rest))
    decreases |x|
  {
    var s := Doubled(x, q) + [q] + rest;
    if x == [] {
      assert s == [q] + rest;
      assert s[1..] == rest;
    } else if x[0] == q {
      assert s == [q, q] + (Doubled(x[1..], q) + [q] + rest);
      assert s[2..] == Doubled(x[1..], q) + [q] + rest;
      ReadDoubled(x[1..], q, rest);
      assert [q] + x[1..] == x;
    } else {
      assert s == [x[0]] + (Doubled(x[1..], q) + [q] + rest);
      assert s[1..] == Doubled(x[1..], q) + [q] + rest;
      ReadDoubled(x[1..], q, rest);
      assert [x[0]] + x[1..] == x;
    }
  }

  // ---------------------------------------------------------------------------
  // Odds and ends
  // ---------------------------------------------------------------------------

  /** `n` blanks: the indentation inside the plugin's triple-quoted SQL templates. */
  function Spaces(n: nat): (s: string)
    ensures |s| == n && forall i :: 0 <= i < n ==> s[i] == ' '
  {
    seq(n, _ => ' ')
  }

  /** Python's `p in s` for two strings: `p` occurs somewhere in `s` (the empty string occurs everywhere). */
  predicate IsSubstring(p: string, s: string) {
    exists i :: 0 <= i <= |s| && p <= s[i..]
  }

  predicate IsDigit(c: char) {
    '0' <= c <= '9'
  }

  function DigitChar(d: nat): (c: char)
    requires d < 10
    ensures IsDigit(c)
  {
    "0123456789"[d]
  }

  function DigitValue(c: char): nat
    requires IsDigit(c)
  {
    (c as int) - ('0' as int)
  }

  /** Decimal digits of `n` with no leading zero: `str(n)` for a non-negative int. */
  function NatToString(n: nat): (s: string)
    ensures |s| >= 1
    ensures forall i :: 0 <= i < |s| ==> IsDigit(s[i])
    decreases n
  {
    if n < 10 then [DigitChar(n)] else NatToString(n / 10) + [DigitChar(n % 10)]
  }

  /** `"{}".format(i)` for an int. */
  function IntToString(i: int): string {
    if i < 0 then "-" + NatToString(-i) else NatToString(i)
  }

  /** The number a string of decimal digits denotes. */
  function DigitsValue(s: string): nat
    requires forall i :: 0 <= i < |s| ==> IsDigit(s[i])
  {
    if s == [] then 0 else DigitsValue(s[..|s| - 1]) * 10 + DigitValue(s[|s| - 1])
  }

  /** What SQL makes of an integer literal with an optional minus sign; None when it is not one. */
  function ReadIntLiteral(s: string): Option<int> {
    if |s| >= 2 && s[0] == '-' && forall i :: 1 <= i < |s| ==> IsDigit(s[i]) then
      var v: int := -(DigitsValue(s[1..]) as int);
      Some(v)
    else if |s| >= 1 && forall i :: 0 <= i < |s| ==> IsDigit(s[i]) then
      Some(DigitsValue(s))
    else None
  }

  lemma {:induction false} NatToStringValue(n: nat)
    ensures DigitsValue(NatToString(n)) == n
    decreases n
  {
    if n >= 10 {
      var s := NatToString(n);
      NatToStringValue(n / 10);
      assert s[..|s| - 1] == NatToString(n / 10);
      assert DigitValue(DigitChar(n % 10)) == n % 10;
    } else {
      assert DigitValue(DigitChar(n)) == n;
    }
  }

  /** The decimal text of an int is an SQL integer literal for that same int. */
  lemma IntToStringRoundTrip(i: int)
    ensures ReadIntLiteral(IntToString(i)) == Some(i)
  {
    if i < 0 {
      NegativeReadsBack(-i);
    } else {
      var s := NatToString(i);
      assert !(|s| >= 2 && s[0] == '-');
      NatToStringValue(i);
    }
  }

  lemma NegativeReadsBack(n: nat)
    requires n > 0
    ensures ReadIntLiteral("-" + NatToString(n)) == Some(-(n as int))
  {
    var digits := NatToString(n);
    var s := "-" + digits;
    assert s[1..] == digits;
    assert forall j :: 1 <= j < |s| ==> s[j] == digits[j - 1];
    NatToStringValue(n);
  }
}
