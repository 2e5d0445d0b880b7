/** The prefix of a listing as a SQL LIKE pattern. */
module LikeEscape {

  /** strings.ReplaceAll for a pattern of one character. */
  function ReplaceChar(s: string, c: char, with: string): string {
    if s == "" then "" else (if s[0] == c then with else [s[0]]) + ReplaceChar(s[1..], c, with)
  }

  /** Three passes over the whole string; the backslashes must be doubled first. */
  function EscapePrefix(prefix: string): string {
    ReplaceChar(ReplaceChar(ReplaceChar(prefix, '\\', "\\\\"), '%', "\\%"), '_', "\\_")
  }

  predicate Special(c: char) {
    c == '\\' || c == '%' || c == '_'
  }

  /** Each special character once, behind its own backslash. */
  function EscapeEach(prefix: string): string {
    if prefix == "" then "" else (if Special(prefix[0]) then ['\\', prefix[0]] else [prefix[0]]) + EscapeEach(prefix[1..])
  }

  lemma {:induction false} ReplaceConcat(a: string, b: string, c: char, with: string)
    ensures ReplaceChar(a + b, c, with) == ReplaceChar(a, c, with) + ReplaceChar(b, c, with)
  {
    if a == "" {
      assert a + b == b;
    } else {
      assert (a + b)[1..] == a[1..] + b;
      ReplaceConcat(a[1..], b, c, with);
    }
  }

  lemma ReplaceOne(x: char, c: char, with: string)
    ensures ReplaceChar([x], c, with) == if x == c then with else [x]
  {
    assert [x][1..] == "";
    assert ReplaceChar("", c, with) == "" && with + "" == with;
  }

  lemma ReplaceTwo(x: char, y: char, c: char, with: string)
    ensures ReplaceChar([x, y], c, with) == (if x == c then with else [x]) + (if y == c then with else [y])
  {
    assert [x, y] == [x] + [y];
    ReplaceConcat([x], [y], c, with);
    ReplaceOne(x, c, with);
    ReplaceOne(y, c, with);
  }

  /** The later passes leave the backslashes of the earlier ones alone. */
  lemma EscapeOne(x: char)
    ensures EscapePrefix([x]) == if Special(x) then ['\\', x] else [x]
  {
    ReplaceOne(x, '\\', "\\\\");
    ReplaceOne(x, '%', "\\%");
    ReplaceOne(x, '_', "\\_");
    ReplaceTwo('\\', '\\', '%', "\\%");
    ReplaceTwo('\\', '\\', '_', "\\_");
    ReplaceTwo('\\', '%', '_', "\\_");
  }

  lemma EscapeConcat(a: string, b: string)
    ensures EscapePrefix(a + b) == EscapePrefix(a) + EscapePrefix(b)
  {
    ReplaceConcat(a, b, '\\', "\\\\");
    var a1, b1 := ReplaceChar(a, '\\', "\\\\"), ReplaceChar(b, '\\', "\\\\");
    ReplaceConcat(a1, b1, '%', "\\%");
    ReplaceConcat(ReplaceChar(a1, '%', "\\%"), ReplaceChar(b1, '%', "\\%"), '_', "\\_");
  }

  /** The three sequential replacements amount to escaping each character once. */
  lemma {:induction false} PassesEscapeEach(prefix: string)
    ensures EscapePrefix(prefix) == EscapeEach(prefix)
  {
    if prefix != "" {
      assert prefix == [prefix[0]] + prefix[1..];
      EscapeConcat([prefix[0]], prefix[1..]);
      EscapeOne(prefix[0]);
      PassesEscapeEach(prefix[1..]);
    }
  }

  /**
   s LIKE pattern ESCAPE '\' (section 9.7.1 of the PostgreSQL manual). A pattern that ends in the escape
   character is an error there and matches nothing here.
   */
  predicate Like(s: string, pattern: string)
    decreases |pattern|, |s|
  {
    if pattern == "" then s == ""
    else if pattern[0] == '%' then Like(s, pattern[1..]) || (s != "" && Like(s[1..], pattern))
    else if pattern[0] == '_' then s != "" && Like(s[1..], pattern[1..])
    else if pattern[0] == '\\' then |pattern| > 1 && s != "" && s[0] == pattern[1] && Like(s[1..], pattern[2..])
    else s != "" && s[0] == pattern[0] && Like(s[1..], pattern[1..])
  }

  lemma {:induction false} PercentMatchesAll(s: string)
    ensures Like(s, "%")
    decreases |s|
  {
    if s == "" {
      assert Like("", "%"[1..]);
    } else {
      PercentMatchesAll(s[1..]);
    }
  }

  lemma {:induction false} EscapedMatchesPrefix(prefix: string, s: string)
    ensures Like(s, EscapeEach(prefix) + "%") <==> prefix <= s
    decreases |prefix|
  {
    if prefix == "" {
      assert EscapeEach("") + "%" == "%";
      PercentMatchesAll(s);
    } else {
      var pattern := EscapeEach(prefix) + "%";
      var rest := EscapeEach(prefix[1..]) + "%";
      assert prefix == [prefix[0]] + prefix[1..];
      if Special(prefix[0]) {
        assert pattern == ['\\', prefix[0]] + rest && pattern[2..] == rest;
      } else {
        assert pattern == [prefix[0]] + rest && pattern[1..] == rest;
      }
      if s != "" {
        EscapedMatchesPrefix(prefix[1..], s[1..]);
        assert s == [s[0]] + s[1..];
      }
    }
  }

  /** For every prefix and every key, the SQL filter selects the key exactly when it starts with the prefix. */
  lemma ListingFilterIsPrefix(prefix: string, key: string)
    ensures Like(key, EscapePrefix(prefix) + "%") <==> prefix <= key
  {
    PassesEscapeEach(prefix);
    EscapedMatchesPrefix(prefix, key);
  }
}
