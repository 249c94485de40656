/**
 What a line of a configuration file assigns, told from its text alone: blanks, a name, blanks,
 an equals sign, blanks, a value, blanks, and then nothing or a comment.
 */
module ConfigLines {

  import opened Common
  import opened StandbyConfig

  predicate Blank(s: string) { forall i :: 0 <= i < |s| ==> IsSpace(s[i]) }

  predicate Trimmed(s: string) { s == "" || (!IsSpace(s[0]) && !IsSpace(s[|s| - 1])) }

  /** What stands around the name and the value: blanks before and after each, and a comment. */
  datatype Around = Around(a: string, b: string, c: string, d: string, comment: string)

  predicate Fits(p: Around, k: string, v: string) {
    && Blank(p.a) && Blank(p.b) && Blank(p.c) && Blank(p.d) && (p.comment == "" || p.comment[0] == '#')
    && Trimmed(k) && '=' !in k && (k != "" ==> k[0] != '#')
    && Trimmed(v) && '#' !in v && v != ""
  }

  function Body(k: string, b: string, c: string, v: string, d: string, comment: string): string {
    k + b + "=" + (c + v + d + comment)
  }

  function Line(p: Around, k: string, v: string): string { p.a + Body(k, p.b, p.c, v, p.d, p.comment) }

  /** The line is written so as to give `k` the value `v`. */
  ghost predicate Gives(line: string, k: string, v: string) { exists p :: Fits(p, k, v) && line == Line(p, k, v) }

  // ---------------------------------------------------------------- trimming, from the text alone

  lemma {:induction false} TrimLeftPast(p: string, s: string)
    requires Blank(p)
    ensures TrimLeft(p + s) == TrimLeft(s)
    decreases |p|
  {
    if p == "" {
      assert p + s == s;
    } else {
      assert (p + s)[1..] == p[1..] + s;
      TrimLeftPast(p[1..], s);
    }
  }

  lemma {:induction false} TrimRightPast(s: string, q: string)
    requires Blank(q)
    ensures TrimRight(s + q) == TrimRight(s)
    decreases |q|
  {
    if q == "" {
      assert s + q == s;
    } else {
      var shorter := q[..|q| - 1];
      assert (s + q)[..|s + q| - 1] == s + shorter;
      TrimRightPast(s, shorter);
    }
  }

  /** Blanks around trimmed text come off, and nothing else. */
  lemma TrimAround(p: string, y: string, q: string)
    requires Blank(p) && Trimmed(y) && Blank(q)
    ensures TrimSpace(p + y + q) == y
  {
    assert p + y + q == p + (y + q);
    TrimLeftPast(p, y + q);
    if y == "" {
      assert y + q == q + "";
      TrimLeftPast(q, "");
    } else {
      assert (y + q)[0] == y[0];
      TrimRightPast(y, q);
    }
  }

  lemma {:induction false} TrimLeftOff(s: string) returns (p: string)
    ensures Blank(p) && s == p + TrimLeft(s)
    decreases |s|
  {
    if s != "" && IsSpace(s[0]) {
      var rest := TrimLeftOff(s[1..]);
      p := [s[0]] + rest;
    } else {
      p := "";
    }
  }

  lemma {:induction false} TrimRightOff(s: string) returns (q: string)
    ensures Blank(q) && s == TrimRight(s) + q
    decreases |s|
  {
    if s != "" && IsSpace(s[|s| - 1]) {
      var rest := TrimRightOff(s[..|s| - 1]);
      q := rest + [s[|s| - 1]];
    } else {
      q := "";
    }
  }

  /** What trimming takes off is blanks, and what it leaves is trimmed. */
  lemma TrimOff(s: string) returns (p: string, q: string)
    ensures Blank(p) && Blank(q) && s == p + TrimSpace(s) + q && Trimmed(TrimSpace(s))
  {
    p := TrimLeftOff(s);
    q := TrimRightOff(TrimLeft(s));
    TrimSpaceEnds(s);
    Nested(s, p, TrimLeft(s), TrimSpace(s), q);
  }

  lemma Nested(s: string, p: string, rest: string, m: string, q: string)
    requires s == p + rest && rest == m + q
    ensures s == p + m + q
  {
  }

  // ---------------------------------------------------------------- from the shape to the assignment

  lemma NameEnds(k: string, b: string, rest: string)
    requires '=' !in k && Blank(b)
    ensures IndexOf(k + b + "=" + rest, '=') == |k + b|
  {
    var t := k + b + "=" + rest;
    assert t[..|k + b|] == k + b;
    FirstAt(t, '=', |k + b|);
  }

  lemma ValueEnds(c: string, v: string, d: string, comment: string)
    requires Blank(c) && Blank(d) && Trimmed(v) && '#' !in v && (comment == "" || comment[0] == '#')
    ensures ValueIn(c + v + d + comment) == v
  {
    var raw := c + v + d + comment;
    var n := |c + v + d|;
    assert raw[..n] == c + v + d;
    if comment == "" {
      NoneAt(raw, '#');
    } else {
      FirstAt(raw, '#', n);
    }
    TrimAround(c, v, d);
  }

  lemma HashPrefix(t: string)
    requires t != ""
    ensures "#" <= t <==> t[0] == '#'
  {
  }

  lemma BodyAssigns(k: string, b: string, c: string, v: string, d: string, comment: string)
    requires Fits(Around("", b, c, d, comment), k, v) && (k == "" ==> b == "")
    ensures AssignsTrimmed(Body(k, b, c, v, d, comment)) == Some((k, v))
  {
    var t, rest := Body(k, b, c, v, d, comment), c + v + d + comment;
    NameEnds(k, b, rest);
    var eq := |k + b|;
    assert t[..eq] == k + b && t[eq + 1..] == rest;
    assert t[0] == if k == "" then '=' else k[0];
    HashPrefix(t);
    BodyAssignsAt(t, eq, k, b, c, v, d, comment);
  }

  lemma BodyAssignsAt(t: string, eq: nat, k: string, b: string, c: string, v: string, d: string, comment: string)
    requires Fits(Around("", b, c, d, comment), k, v) && eq < |t| && t[..eq] == k + b && t[eq + 1..] == c + v + d + comment
    ensures AssignsAt(t, eq) == Some((k, v))
  {
    TrimAround("", k, b);
    assert "" + k + b == k + b;
    ValueEnds(c, v, d, comment);
  }

  /** What trimming leaves of the blanks and the comment at the end of a line. */
  lemma EndTrims(d: string, comment: string) returns (d': string, comment': string, q: string)
    requires Blank(d) && (comment == "" || comment[0] == '#')
    ensures Blank(d') && Blank(q) && d' + comment' + q == d + comment
    ensures if comment' == "" then d' == "" else comment'[0] == '#' && !IsSpace(comment'[|comment'| - 1])
  {
    if comment == "" {
      d', comment', q := "", "", d;
    } else {
      q := TrimRightOff(comment);
      d', comment' := d, TrimRight(comment);
      TrimRightKeeps(comment, 0);
      assert d + comment' + q == d + (comment' + q);
    }
  }

  /** A line of that shape, trimmed, is of that shape with nothing blank at its ends. */
  lemma LineTrims(p: Around, k: string, v: string) returns (b: string, d: string, comment: string)
    requires Fits(p, k, v)
    ensures Fits(Around("", b, p.c, d, comment), k, v) && (k == "" ==> b == "")
    ensures TrimSpace(Line(p, k, v)) == Body(k, b, p.c, v, d, comment)
  {
    var q;
    d, comment, q := EndTrims(p.d, p.comment);
    b := if k == "" then "" else p.b;
    var head := if k == "" then p.a + p.b else p.a;
    LineIsAround(p, k, v, head, b, d, comment, q);
    BodyIsTrimmed(k, b, p.c, v, d, comment);
    TrimAround(head, Body(k, b, p.c, v, d, comment), q);
  }

  lemma LineIsAround(p: Around, k: string, v: string, head: string, b: string, d: string, comment: string, q: string)
    requires if k == "" then head == p.a + p.b && b == "" else head == p.a && b == p.b
    requires d + comment + q == p.d + p.comment
    ensures Line(p, k, v) == head + Body(k, b, p.c, v, d, comment) + q
  {
    var tail := p.c + v + (p.d + p.comment);
    assert p.c + v + p.d + p.comment == tail;
    assert p.c + v + d + comment + q == tail;
    assert Line(p, k, v) == p.a + (k + p.b) + "=" + tail;
    assert head + (k + b) == p.a + (k + p.b);
  }

  lemma BodyIsTrimmed(k: string, b: string, c: string, v: string, d: string, comment: string)
    requires Trimmed(k) && (k == "" ==> b == "") && Trimmed(v) && v != ""
    requires if comment == "" then d == "" else !IsSpace(comment[|comment| - 1])
    ensures Trimmed(Body(k, b, c, v, d, comment))
  {
    var y := Body(k, b, c, v, d, comment);
    assert y[0] == if k == "" then '=' else k[0];
    assert y[|y| - 1] == if comment == "" then v[|v| - 1] else comment[|comment| - 1];
  }

  // ---------------------------------------------------------------- and back

  /** The name: what stands before the first equals sign of a trimmed line. */
  lemma NameShape(t: string, eq: nat, k: string) returns (b: string)
    requires Trimmed(t) && eq < |t| && '=' !in t[..eq] && t[0] != '#' && k == TrimSpace(t[..eq])
    ensures t[..eq] == k + b && Blank(b) && Trimmed(k) && '=' !in k && (k != "" ==> k[0] != '#')
  {
    var name := t[..eq];
    assert name != "" ==> name[0] == t[0];
    assert TrimLeft(name) == name;
    b := TrimRightOff(name);
    TrimSpaceEnds(name);
  }

  /** The value: what stands before a comment. */
  lemma ValueShape(raw: string, v: string) returns (c: string, d: string, comment: string)
    requires v == ValueIn(raw) && v != ""
    ensures raw == c + v + d + comment && Blank(c) && Blank(d) && (comment == "" || comment[0] == '#')
    ensures Trimmed(v) && '#' !in v
  {
    var cut := IndexOf(raw, '#');
    c, d := TrimOff(raw[..cut]);
    comment := raw[cut..];
    TrimSpaceEnds(raw[..cut]);
    assert raw == raw[..cut] + comment;
  }

  lemma AssignsParts(t: string, eq: nat, k: string, v: string)
    requires AssignsTrimmed(t) == Some((k, v)) && eq == IndexOf(t, '=')
    ensures t != "" && t[0] != '#' && eq < |t| && t[eq] == '=' && '=' !in t[..eq] && AssignsAt(t, eq) == Some((k, v))
  {
    if t != "" { HashPrefix(t); }
  }

  lemma ShapeAt(t: string, eq: nat, k: string, v: string) returns (b: string, c: string, d: string, comment: string)
    requires Trimmed(t) && eq < |t| && '=' !in t[..eq] && t[0] != '#' && AssignsAt(t, eq) == Some((k, v))
    ensures Fits(Around("", b, c, d, comment), k, v)
    ensures t[..eq] == k + b && t[eq + 1..] == c + v + d + comment
  {
    b := NameShape(t, eq, k);
    c, d, comment := ValueShape(t[eq + 1..], v);
  }

  lemma BodyAround(t: string, eq: nat, k: string, b: string, c: string, v: string, d: string, comment: string)
    requires eq < |t| && t[eq] == '=' && t[..eq] == k + b && t[eq + 1..] == c + v + d + comment
    ensures t == Body(k, b, c, v, d, comment)
  {
    assert t == t[..eq] + "=" + t[eq + 1..];
  }

  lemma TrimmedShape(t: string, k: string, v: string) returns (b: string, c: string, d: string, comment: string)
    requires Trimmed(t) && AssignsTrimmed(t) == Some((k, v))
    ensures Fits(Around("", b, c, d, comment), k, v) && t == Body(k, b, c, v, d, comment)
  {
    var eq := IndexOf(t, '=');
    AssignsParts(t, eq, k, v);
    b, c, d, comment := ShapeAt(t, eq, k, v);
    BodyAround(t, eq, k, b, c, v, d, comment);
  }

  lemma AssignsShape(line: string, k: string, v: string) returns (p: Around)
    requires Assigns(line) == Some((k, v))
    ensures Fits(p, k, v) && line == Line(p, k, v)
  {
    var before, after := TrimOff(line);
    var b, c, d, comment := TrimmedShape(TrimSpace(line), k, v);
    p := if comment == "" then Around(before, b, c, d + after, "") else Around(before, b, c, d, comment + after);
    Reassembled(line, before, k, b, c, v, d, comment, after, TrimSpace(line));
  }

  lemma Reassembled(line: string, before: string, k: string, b: string, c: string, v: string, d: string,
                    comment: string, after: string, t: string)
    requires line == before + t + after && t == (k + b) + "=" + (c + v + d + comment)
    ensures line == before + Body(k, b, c, v, d + after, "") || comment != ""
    ensures line == before + Body(k, b, c, v, d, comment + after)
  {
    assert c + v + d + comment + after == c + v + d + (comment + after);
    if comment == "" { assert c + v + d + comment + after == c + v + (d + after) + ""; }
    assert line == before + (t + after);
  }

  /** A line assigns `v` to `k` exactly when it is written so as to. */
  lemma AssignsExactly(line: string, k: string, v: string)
    ensures Assigns(line) == Some((k, v)) <==> Gives(line, k, v)
  {
    if Assigns(line) == Some((k, v)) { var p := AssignsShape(line, k, v); }
    if Gives(line, k, v) {
      var p :| Fits(p, k, v) && line == Line(p, k, v);
      var b, d, comment := LineTrims(p, k, v);
      BodyAssigns(k, b, p.c, v, d, comment);
    }
  }

  /** No line from the `i`-th on gives `k` a value. */
  ghost predicate SilentFrom(lines: seq<string>, i: nat, k: string) {
    forall j, v :: i <= j < |lines| ==> !Gives(lines[j], k, v)
  }

  lemma {:induction false} FindSilent(lines: seq<string>, i: nat, k: string)
    requires i <= |lines| && SilentFrom(lines, i, k)
    ensures Find(lines, k) == Find(lines[..i], k)
    decreases |lines|
  {
    if i < |lines| {
      var init, last := lines[..|lines| - 1], lines[|lines| - 1];
      assert forall j :: i <= j < |init| ==> init[j] == lines[j];
      FindSilent(init, i, k);
      assert init[..i] == lines[..i];
      var a := Assigns(last);
      if a.Some? { AssignsExactly(last, a.value.0, a.value.1); }
    } else {
      assert lines[..i] == lines;
    }
  }

  lemma FindLast(lines: seq<string>, i: nat, k: string, v: string)
    requires i < |lines| && Assigns(lines[i]) == Some((k, v)) && SilentFrom(lines, i + 1, k)
    ensures Find(lines, k) == Some(v)
  {
    FindSilent(lines, i + 1, k);
    FindFront(lines, i, k, v);
  }

  lemma FindFront(lines: seq<string>, i: nat, k: string, v: string)
    requires i < |lines| && Assigns(lines[i]) == Some((k, v))
    ensures Find(lines[..i + 1], k) == Some(v)
  {
    assert lines[..i + 1] == lines[..i] + [lines[i]];
    FindOneMore(lines[..i], lines[i], k);
  }

  /** What is captured of a file: the value its last line that gives the setting one gives it, and nothing if none does. */
  lemma CapturedIsLast(content: string, k: string, i: nat, v: string)
    requires k in IdentitySettings && i < |Split(content)| && Gives(Split(content)[i], k, v)
    requires SilentFrom(Split(content), i + 1, k)
    ensures k in Settings(content) && Settings(content)[k] == v
  {
    AssignsExactly(Split(content)[i], k, v);
    FindLast(Split(content), i, k, v);
  }

  lemma NothingCaptured(content: string, k: string)
    requires SilentFrom(Split(content), 0, k)
    ensures k !in Settings(content)
  {
    FindSilent(Split(content), 0, k);
  }

  // ---------------------------------------------------------------- the connection string, read back

  /** The words of a text, separated by single spaces. */
  function Words(s: string): (words: seq<string>)
    ensures |words| > 0
  {
    if s == "" then [""]
    else if s[0] == ' ' then [""] + Words(s[1..])
    else
      var rest := Words(s[1..]);
      [[s[0]] + rest[0]] + rest[1..]
  }

  lemma {:induction false} WordsAppend(word: string, rest: string)
    requires ' ' !in word
    ensures Words(word + " " + rest) == [word] + Words(rest)
    decreases |word|
  {
    var s := word + " " + rest;
    if word == "" {
      assert s[1..] == rest;
    } else {
      assert s[1..] == word[1..] + " " + rest;
      WordsAppend(word[1..], rest);
      assert [s[0]] + word[1..] == word;
    }
  }

  lemma {:induction false} OneWord(word: string)
    requires ' ' !in word
    ensures Words(word) == [word]
    decreases |word|
  {
    if word != "" {
      OneWord(word[1..]);
      assert [word[0]] + word[1..] == word;
    }
  }

  /** Words put together with single spaces between them. */
  function Spaced(words: seq<string>): string
    requires words != []
  {
    if |words| == 1 then words[0] else words[0] + " " + Spaced(words[1..])
  }

  lemma {:induction false} SpacedWords(words: seq<string>)
    requires words != [] && forall i :: 0 <= i < |words| ==> ' ' !in words[i]
    ensures Words(Spaced(words)) == words
    decreases |words|
  {
    if |words| == 1 {
      OneWord(words[0]);
    } else {
      SpacedWords(words[1..]);
      WordsAppend(words[0], Spaced(words[1..]));
    }
  }

  /** What a connection string has to say, keyword by keyword: the host and port always, the user and password if there are any. */
  function Keywords(s: Setup): seq<string> {
    ["host=" + s.primary, "port=" + Digits(s.port)]
    + (if s.user != "" then ["user=" + s.user] else [])
    + (if s.password != "" then ["password=" + s.password] else [])
  }

  /** The number a decimal numeral stands for. */
  function Number(digits: string): int {
    if digits == "" then 0 else Number(digits[..|digits| - 1]) * 10 + (digits[|digits| - 1] as int - '0' as int)
  }

  lemma {:induction false} DigitsRead(n: nat)
    ensures Number(Digits(n)) == n
  {
    if n >= 10 {
      DigitsRead(n / 10);
      var s := Digits(n / 10) + [('0' as int + n % 10) as char];
      assert s[..|s| - 1] == Digits(n / 10);
    } else {
      assert Digits(n)[..0] == "";
    }
  }

  /** No word holds a space. */
  lemma {:induction false} WordsAreWords(s: string)
    ensures forall i :: 0 <= i < |Words(s)| ==> ' ' !in Words(s)[i]
    decreases |s|
  {
    if s != "" { WordsAreWords(s[1..]); }
  }

  lemma KeywordsAreWords(s: Setup)
    ensures (forall i :: 0 <= i < |Keywords(s)| ==> ' ' !in Keywords(s)[i])
       <==> ' ' !in s.primary && ' ' !in s.user && ' ' !in s.password
  {
    var words := Keywords(s);
    assert words[0] == "host=" + s.primary && words[1] == "port=" + Digits(s.port);
    if s.user != "" { assert words[2] == "user=" + s.user; }
    if s.password != "" { assert words[|words| - 1] == "password=" + s.password; }
  }

  /** The connection string is read back word for word, in order, exactly if no value holds a space. */
  lemma ConninfoReadBack(s: Setup)
    ensures Words(Conninfo(s)) == Keywords(s) <==> ' ' !in s.primary && ' ' !in s.user && ' ' !in s.password
  {
    KeywordsAreWords(s);
    WordsAreWords(Conninfo(s));
    if ' ' !in s.primary && ' ' !in s.user && ' ' !in s.password {
      SpacedWords(Keywords(s));
      ConninfoIsSpaced(s);
    }
  }

  lemma SpacedCons(word: string, rest: seq<string>)
    requires rest != []
    ensures Spaced([word] + rest) == word + " " + Spaced(rest)
  {
    assert ([word] + rest)[1..] == rest;
  }

  lemma SpacedTwo(a: string, b: string)
    ensures Spaced([a, b]) == a + (" " + b)
  {
    SpacedCons(a, [b]);
    assert [a] + [b] == [a, b];
  }

  lemma SpacedThree(a: string, b: string, c: string)
    ensures Spaced([a, b, c]) == a + (" " + b) + (" " + c)
  {
    SpacedTwo(b, c);
    SpacedCons(a, [b, c]);
    assert [a] + [b, c] == [a, b, c];
  }

  lemma SpacedFour(a: string, b: string, c: string, d: string)
    ensures Spaced([a, b, c, d]) == a + (" " + b) + (" " + c) + (" " + d)
  {
    SpacedThree(b, c, d);
    SpacedCons(a, [b, c, d]);
    assert [a] + [b, c, d] == [a, b, c, d];
  }

  lemma Keyword(space: string, name: string, value: string)
    ensures (space + name) + value == space + (name + value)
  {
  }

  lemma ConninfoIsSpaced(s: Setup)
    ensures Conninfo(s) == Spaced(Keywords(s))
  {
    var h, p, u, w := "host=" + s.primary, "port=" + Digits(s.port), "user=" + s.user, "password=" + s.password;
    assert " port=" == " " + "port=" && " user=" == " " + "user=" && " password=" == " " + "password=";
    Keyword(" ", "port=", Digits(s.port));
    Keyword(" ", "user=", s.user);
    Keyword(" ", "password=", s.password);
    assert Conninfo(s) == h + " port=" + Digits(s.port)
                          + (if s.user != "" then " " + u else "") + (if s.password != "" then " " + w else "");
    assert h + " port=" + Digits(s.port) == h + (" " + p);
    KeywordsSpaced(h, p, u, w, s.user != "", s.password != "");
  }

  lemma KeywordsSpaced(h: string, p: string, u: string, w: string, user: bool, password: bool)
    ensures Spaced([h, p] + (if user then [u] else []) + (if password then [w] else []))
         == h + (" " + p) + (if user then " " + u else "") + (if password then " " + w else "")
  {
    if user && password {
      SpacedFour(h, p, u, w);
      assert [h, p] + [u] + [w] == [h, p, u, w];
    } else if user {
      SpacedThree(h, p, u);
      assert [h, p] + [u] + [] == [h, p, u];
      assert h + (" " + p) + (" " + u) + "" == h + (" " + p) + (" " + u);
    } else if password {
      SpacedThree(h, p, w);
      assert [h, p] + [] + [w] == [h, p, w];
      assert h + (" " + p) + "" + (" " + w) == h + (" " + p) + (" " + w);
    } else {
      SpacedTwo(h, p);
      assert [h, p] + [] + [] == [h, p];
      assert h + (" " + p) + "" + "" == h + (" " + p);
    }
  }
}
