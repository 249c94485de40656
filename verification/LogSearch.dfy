/**
 Searching stored log messages: the text an operator types is escaped and wrapped in wildcards,
 and the database matches it with LIKE and a backslash as the escape character (SQLite's SQL
 Language Expressions document, section 5).
 */
module LogSearch {

  const Escape: char := '\\'

  /** LIKE ignores the case of ASCII letters. */
  function Fold(c: char): char {
    if 'A' <= c <= 'Z' then (c as int + 32) as char else c
  }

  predicate Same(a: char, b: char) { Fold(a) == Fold(b) }

  /** The LIKE operator with an escape character; a pattern that ends in one matches nothing. */
  predicate Like(pattern: string, s: string)
    decreases |pattern| + |s|
  {
    if pattern == "" then s == ""
    else if pattern[0] == Escape then
      |pattern| > 1 && s != "" && Same(pattern[1], s[0]) && Like(pattern[2..], s[1..])
    else if pattern[0] == '%' then
      Like(pattern[1..], s) || (s != "" && Like(pattern, s[1..]))
    else
      s != "" && (pattern[0] == '_' || Same(pattern[0], s[0])) && Like(pattern[1..], s[1..])
  }

  predicate IsSpecial(c: char) { c == '\\' || c == '%' || c == '_' }

  /** escapeLike: one pass, each special character preceded by the escape character. */
  function EscapeLike(s: string): string {
    if s == "" then ""
    else (if IsSpecial(s[0]) then [Escape, s[0]] else [s[0]]) + EscapeLike(s[1..])
  }

  /** The argument GetLogs binds. */
  function SearchPattern(search: string): string { "%" + EscapeLike(search) + "%" }

  /** `s` starts with `text`, letters' case aside. */
  predicate StartsWith(s: string, text: string) {
    |text| <= |s| && forall j :: 0 <= j < |text| ==> Same(text[j], s[j])
  }

  ghost predicate Contains(s: string, text: string) {
    exists i :: 0 <= i <= |s| && StartsWith(s[i..], text)
  }

  lemma {:induction false} PercentMatchesAll(s: string)
    ensures Like("%", s)
  {
    if s != "" {
      PercentMatchesAll(s[1..]);
    } else {
      assert "%"[1..] == "";
    }
  }

  /** A leading wildcard tries every place the rest could start. */
  lemma {:induction false} LeadingPercent(p: string, s: string)
    ensures Like("%" + p, s) <==> exists i :: 0 <= i <= |s| && Like(p, s[i..])
    decreases |s|
  {
    assert ("%" + p)[1..] == p;
    assert s[0..] == s;
    if s != "" {
      var t := s[1..];
      LeadingPercent(p, t);
      assert forall i :: 0 <= i <= |t| ==> t[i..] == s[i + 1..];
      if Like("%" + p, t) {
        var i :| 0 <= i <= |t| && Like(p, t[i..]);
        assert Like(p, s[i + 1..]);
      }
      if k :| 0 < k <= |s| && Like(p, s[k..]) {
        assert s[k..] == t[k - 1..];
      }
    }
  }

  lemma EscapedShape(text: string, rest: string)
    requires text != ""
    ensures EscapeLike(text) + rest
         == (if IsSpecial(text[0]) then [Escape, text[0]] else [text[0]]) + (EscapeLike(text[1..]) + rest)
  {
  }

  lemma EscapedMatches(c: char, tail: string, s: string)
    ensures Like([Escape, c] + tail, s) <==> s != "" && Same(c, s[0]) && Like(tail, s[1..])
  {
    assert ([Escape, c] + tail)[2..] == tail;
  }

  lemma PlainMatches(c: char, tail: string, s: string)
    requires c != Escape && c != '%' && c != '_'
    ensures Like([c] + tail, s) <==> s != "" && Same(c, s[0]) && Like(tail, s[1..])
  {
    assert ([c] + tail)[1..] == tail;
  }

  /** The first character of an escaped text matches that character. */
  lemma EscapedFirst(text: string, rest: string, s: string)
    requires text != ""
    ensures Like(EscapeLike(text) + rest, s) <==> s != "" && Same(text[0], s[0]) && Like(EscapeLike(text[1..]) + rest, s[1..])
  {
    EscapedShape(text, rest);
    if IsSpecial(text[0]) {
      EscapedMatches(text[0], EscapeLike(text[1..]) + rest, s);
    } else {
      PlainMatches(text[0], EscapeLike(text[1..]) + rest, s);
    }
  }

  /** Escaped text matches itself and nothing else. */
  lemma {:induction false} EscapedIsLiteral(text: string, rest: string, s: string)
    ensures Like(EscapeLike(text) + rest, s) <==> StartsWith(s, text) && Like(rest, s[|text|..])
    decreases |text|
  {
    if text == "" {
      assert EscapeLike(text) + rest == rest;
      assert s[0..] == s;
    } else {
      EscapedFirst(text, rest, s);
      if s != "" {
        EscapedIsLiteral(text[1..], rest, s[1..]);
        assert StartsWith(s, text) <==> Same(text[0], s[0]) && StartsWith(s[1..], text[1..]);
        assert |text| <= |s| ==> s[1..][|text| - 1..] == s[|text|..];
      }
    }
  }

  /** For every search text and every message: the pattern matches exactly when the message contains the text. */
  lemma SearchIsExact(search: string, message: string)
    ensures Like(SearchPattern(search), message) <==> Contains(message, search)
  {
    var p := EscapeLike(search) + "%";
    assert SearchPattern(search) == "%" + p;
    LeadingPercent(p, message);
    forall i | 0 <= i <= |message|
      ensures Like(p, message[i..]) <==> StartsWith(message[i..], search)
    {
      EscapedIsLiteral(search, "%", message[i..]);
      if |search| <= |message[i..]| {
        PercentMatchesAll(message[i..][|search|..]);
      }
    }
  }
}
