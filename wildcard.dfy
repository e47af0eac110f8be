/**
 * The search pattern every builder makes from the user's text: each
 * whitespace-separated token is prefixed with `%` and the tokens are
 * concatenated with nothing in between, then one closing `%` is added, so
 * "main road" becomes "%main%road%". The same loop appears at
 * Discovery/dbutils.py:126-129, Discovery/oracle_utils.py:121-124,
 * Discovery/mssql_utils.py:108-111 and PostGIS_Search/postgissearch.py:173-176.
 */
module Wildcard {
  import opened Text

  /** The pattern before its closing `%`: `'%' + part` appended for each part, left to right. */
  function Wildcarded(parts: seq<string>): string
    decreases |parts|
  {
    if parts == [] then [] else Wildcarded(parts[..|parts| - 1]) + "%" + parts[|parts| - 1]
  }

  /** The pattern for a search text: the fold over `text.split()`, then a closing `%`. */
  function SearchPattern(text: string): string {
    Wildcarded(Words(text)) + "%"
  }

  /** The builders' loop: `wildcarded_search_string += '%' + part` for each part, then `+= '%'`. */
  method BuildPattern(text: string) returns (pattern: string)
    ensures pattern == SearchPattern(text)
  {
    var parts := Words(text);
    pattern := "";
    for i := 0 to |parts|
      invariant pattern == Wildcarded(parts[..i])
    {
      assert parts[..i + 1][..i] == parts[..i];
      pattern := pattern + "%" + parts[i];
    }
    assert parts[..|parts|] == parts;
    pattern := pattern + "%";
  }

  /**
   * Building the pattern is a left fold over the tokens: typing one more
   * token after a whitespace character replaces the closing `%` by
   * `%token%`, i.e. appends `token%` to the previous pattern.
   */
  lemma PatternAppendsToken(text: string, c: char, token: string)
    requires IsSpace(c) && IsToken(token)
    ensures SearchPattern(text + [c] + token) == SearchPattern(text) + token + "%"
  {
    WordsAroundSpace(text, c, token);
    WordsOfToken(token);
    var ws := Words(text);
    assert (ws + [token])[..|ws|] == ws;
  }

  /** Whitespace-only (or empty) text gives the pattern `%`, which matches everything. */
  lemma BlankTextPattern(text: string)
    requires forall i :: 0 <= i < |text| ==> IsSpace(text[i])
    ensures SearchPattern(text) == "%"
  {
    WordsOfBlank(text);
  }

  /** The documented example: "main road" becomes "%main%road%". */
  lemma MainRoadPattern(text: string)
    requires text == "main road"
    ensures SearchPattern(text) == "%main%road%"
  {
    var main, road := "main", "road";
    LettersAreToken(main);
    LettersAreToken(road);
    WordsOfToken(main);
    assert [main][..0] == [];
    assert SearchPattern(main) == "%main%";
    PatternAppendsToken(main, ' ', road);
    assert main + [' '] + road == text;
  }

  lemma LettersAreToken(w: string)
    requires w == "main" || w == "road"
    ensures IsToken(w)
  {
    forall i | 0 <= i < |w| ensures !IsSpace(w[i]) {
      assert w[i] in {'m', 'a', 'i', 'n', 'r', 'o', 'd'};
    }
  }

  // ---------------------------------------------------------------------------
  // What the pattern matches
  // ---------------------------------------------------------------------------

  /** No character that LIKE treats specially in any of the three databases: `%`, `_`, `\` or `[`. */
  predicate PlainToken(w: string) {
    forall i :: 0 <= i < |w| ==> w[i] != '%' && w[i] != '_' && w[i] != '\\' && w[i] != '['
  }

  /**
   * SQL LIKE, case-sensitively: `%` matches any run of characters, `_` any
   * one character, every other pattern character itself.
   */
  predicate LikeMatches(p: string, s: string)
    decreases |p|, |s|
  {
    if p == [] then s == []
    else if p[0] == '%' then LikeMatches(p[1..], s) || (s != [] && LikeMatches(p, s[1..]))
    else if p[0] == '_' then s != [] && LikeMatches(p[1..], s[1..])
    else s != [] && s[0] == p[0] && LikeMatches(p[1..], s[1..])
  }

  /** The tokens occur in `s` one after the other, without overlapping, anything before, between or after them. */
  predicate ContainsInOrder(tokens: seq<string>, s: string)
    decreases |tokens|
  {
    tokens == [] ||
    exists i :: 0 <= i <= |s| && tokens[0] <= s[i..] && ContainsInOrder(tokens[1..], s[i + |tokens[0]|..])
  }

  lemma {:induction false} WildcardedFromFront(parts: seq<string>)
    requires parts != []
    ensures Wildcarded(parts) == "%" + parts[0] + Wildcarded(parts[1..])
    decreases |parts|
  {
    if |parts| > 1 {
      var front := parts[..|parts| - 1];
      WildcardedFromFront(front);
      assert front[1..] == parts[1..][..|parts[1..]| - 1];
    } else {
      assert parts[..0] == [];
    }
  }

  lemma {:induction false} LiteralPrefixMatches(w: string, r: string, t: string)
    requires PlainToken(w)
    ensures LikeMatches(w + r, t) <==> w <= t && LikeMatches(r, t[|w|..])
    decreases |w|
  {
    if w != [] {
      assert (w + r)[1..] == w[1..] + r;
      if t != [] && t[0] == w[0] {
        LiteralPrefixMatches(w[1..], r, t[1..]);
        assert w <= t <==> w[1..] <= t[1..];
        if w <= t {
          assert t[1..][|w| - 1..] == t[|w|..];
        }
      }
    } else {
      assert w + r == r;
    }
  }

  lemma {:induction false} PercentPrefixMatches(r: string, s: string)
    ensures LikeMatches("%" + r, s) <==> exists i :: 0 <= i <= |s| && LikeMatches(r, s[i..])
    decreases |s|
  {
    var p := "%" + r;
    assert p[1..] == r;
    if LikeMatches(p, s) {
      if LikeMatches(r, s) {
        assert s[0..] == s;
      } else {
        PercentPrefixMatches(r, s[1..]);
        var i :| 0 <= i <= |s[1..]| && LikeMatches(r, s[1..][i..]);
        assert s[1..][i..] == s[i + 1..];
      }
    }
    if exists i :: 0 <= i <= |s| && LikeMatches(r, s[i..]) {
      var i :| 0 <= i <= |s| && LikeMatches(r, s[i..]);
      if i == 0 {
        assert s[0..] == s;
      } else {
        assert s[1..][i - 1..] == s[i..];
        PercentPrefixMatches(r, s[1..]);
      }
    }
  }

  lemma PatternSplitsAtFirst(tokens: seq<string>)
    requires tokens != []
    ensures Wildcarded(tokens) + "%" == "%" + (tokens[0] + (Wildcarded(tokens[1..]) + "%"))
  {
    var w, tail := tokens[0], Wildcarded(tokens[1..]);
    WildcardedFromFront(tokens);
    assert Wildcarded(tokens) + "%" == "%" + w + tail + "%";
    assert "%" + w + tail + "%" == "%" + (w + (tail + "%"));
  }

  lemma PatternFromFront(tokens: seq<string>, s: string)
    requires tokens != []
    ensures LikeMatches(Wildcarded(tokens) + "%", s)
        <==> exists i :: 0 <= i <= |s| && LikeMatches(tokens[0] + (Wildcarded(tokens[1..]) + "%"), s[i..])
  {
    var r := tokens[0] + (Wildcarded(tokens[1..]) + "%");
    PatternSplitsAtFirst(tokens);
    PercentPrefixMatches(r, s);
  }

  lemma TokenAt(w: string, rest: string, s: string, i: nat)
    requires PlainToken(w) && i <= |s|
    ensures LikeMatches(w + rest, s[i..]) <==> w <= s[i..] && LikeMatches(rest, s[i + |w|..])
  {
    LiteralPrefixMatches(w, rest, s[i..]);
    if w <= s[i..] {
      assert s[i..][|w|..] == s[i + |w|..];
    }
  }

  predicate AllPlain(tokens: seq<string>) {
    forall k :: 0 <= k < |tokens| ==> PlainToken(tokens[k])
  }

  lemma TailPlain(tokens: seq<string>)
    requires tokens != [] && AllPlain(tokens)
    ensures PlainToken(tokens[0]) && AllPlain(tokens[1..])
  {
    forall k | 0 <= k < |tokens[1..]| ensures PlainToken(tokens[1..][k]) {
      assert tokens[1..][k] == tokens[k + 1];
    }
  }

  lemma {:induction false} MatchMeansInOrder(tokens: seq<string>, s: string)
    requires AllPlain(tokens)
    requires LikeMatches(Wildcarded(tokens) + "%", s)
    ensures ContainsInOrder(tokens, s)
    decreases |tokens|
  {
    if tokens != [] {
      var w, tail := tokens[0], tokens[1..];
      var rest := Wildcarded(tail) + "%";
      TailPlain(tokens);
      PatternFromFront(tokens, s);
      var i :| 0 <= i <= |s| && LikeMatches(w + rest, s[i..]);
      TokenAt(w, rest, s, i);
      MatchMeansInOrder(tail, s[i + |w|..]);
    }
  }

  /** A lone `%` matches every value. */
  lemma {:induction false} PercentMatchesAll(s: string)
    ensures LikeMatches("%", s)
    decreases |s|
  {
    assert "%"[1..] == [];
    if s != [] {
      PercentMatchesAll(s[1..]);
    }
  }

  /** Where the first token sits, with the rest in order after it. */
  lemma InOrderWitness(tokens: seq<string>, s: string) returns (i: nat)
    requires tokens != [] && ContainsInOrder(tokens, s)
    ensures i <= |s| && tokens[0] <= s[i..] && ContainsInOrder(tokens[1..], s[i + |tokens[0]|..])
  {
    i :| 0 <= i <= |s| && tokens[0] <= s[i..] && ContainsInOrder(tokens[1..], s[i + |tokens[0]|..]);
  }

  lemma {:induction false} InOrderMeansMatch(tokens: seq<string>, s: string)
    requires AllPlain(tokens)
    requires ContainsInOrder(tokens, s)
    ensures LikeMatches(Wildcarded(tokens) + "%", s)
    decreases |tokens|
  {
    if tokens == [] {
      assert Wildcarded(tokens) + "%" == "%";
      PercentMatchesAll(s);
    } else {
      var w, tail := tokens[0], tokens[1..];
      var rest := Wildcarded(tail) + "%";
      TailPlain(tokens);
      var i := InOrderWitness(tokens, s);
      InOrderMeansMatch(tail, s[i + |w|..]);
      TokenAt(w, rest, s, i);
      assert LikeMatches(tokens[0] + (Wildcarded(tokens[1..]) + "%"), s[i..]);
      PatternFromFront(tokens, s);
    }
  }

  /**
   * The pattern asks for the tokens in order and nothing else: for tokens
   * free of LIKE's special characters, the pattern matches a value exactly
   * when the tokens occur in it in the order typed ("%main%road%" matches
   * "main road" and "mainstreetroad", not "road main").
   */
  lemma PatternMatchesTokensInOrder(tokens: seq<string>, s: string)
    requires AllPlain(tokens)
    ensures LikeMatches(Wildcarded(tokens) + "%", s) <==> ContainsInOrder(tokens, s)
  {
    if LikeMatches(Wildcarded(tokens) + "%", s) {
      MatchMeansInOrder(tokens, s);
    }
    if ContainsInOrder(tokens, s) {
      InOrderMeansMatch(tokens, s);
    }
  }
}
