/**
 The line that tells a standby whom to follow, and the name of its slot: how they are quoted, and
 what PostgreSQL reads in the file the agent writes.
 */
module PrimaryLine {

  import opened Common
  import opened StandbyConfig
  import opened ConfigLines

  // ---------------------------------------------------------------- quoting, read back

  /**
   The text a quoted value stands for, from after its opening quote: two quotes are one, and a
   single one closes it (PostgreSQL 16 documentation, section 20.1.2).  A backslash means
   something of its own there, and is not read here.
   */
  function Unescaped(s: string): Option<string> {
    if s == "" || s[0] == '\\' then None
    else if s[0] != '\'' then Before(s[0], Unescaped(s[1..]))
    else if |s| == 1 then Some("")
    else if s[1] == '\'' then Before('\'', Unescaped(s[2..]))
    else None
  }

  function Before(c: char, rest: Option<string>): Option<string> {
    if rest.Some? then Some([c] + rest.value) else None
  }

  function Unquoted(v: string): Option<string> { if v != "" && v[0] == '\'' then Unescaped(v[1..]) else None }

  lemma {:induction false} DoubledReadsBack(s: string)
    requires '\\' !in s
    ensures Unescaped(DoubleQuotes(s) + "'") == Some(s)
  {
    var written := DoubleQuotes(s) + "'";
    if s != "" {
      DoubledReadsBack(s[1..]);
      var rest := DoubleQuotes(s[1..]) + "'";
      assert [s[0]] + s[1..] == s;
      if s[0] == '\'' {
        assert written[2..] == rest;
      } else {
        assert written[1..] == rest;
      }
    }
  }

  /** Doubling the quotes is undone by reading, for every text without a backslash. */
  lemma QuotingReadsBack(s: string)
    requires '\\' !in s
    ensures Unquoted(Quoted(DoubleQuotes(s))) == Some(s)
  {
    DoubledReadsBack(s);
    assert Quoted(DoubleQuotes(s))[1..] == DoubleQuotes(s) + "'";
  }

  /** Reading a quoted text shortens it by its closing quote, and further if there is another quote in it. */
  lemma {:induction false} UnescapedShortens(s: string)
    requires Unescaped(s).Some?
    ensures |Unescaped(s).value| < |s|
    ensures '\'' in s[..|s| - 1] ==> |Unescaped(s).value| < |s| - 1
    decreases |s|
  {
    if s[0] != '\'' {
      UnescapedShortens(s[1..]);
      assert s[..|s| - 1] == [s[0]] + s[1..][..|s[1..]| - 1];
    } else if |s| > 1 {
      UnescapedShortens(s[2..]);
    }
  }

  lemma {:induction false} UnescapedAsIs(s: string)
    requires '\\' !in s && '\'' !in s
    ensures Unescaped(s + "'") == Some(s)
  {
    if s != "" {
      UnescapedAsIs(s[1..]);
      assert (s + "'")[1..] == s[1..] + "'" && [s[0]] + s[1..] == s;
    }
  }

  /** The slot's name is quoted without doubling: it is read back as it is, if and only if it holds no quote. */
  lemma SlotReadBackExactly(slot: string)
    requires '\\' !in slot
    ensures Unquoted(Quoted(slot)) == Some(slot) <==> '\'' !in slot
  {
    var s := slot + "'";
    assert Quoted(slot)[1..] == s && s[..|s| - 1] == slot;
    if '\'' !in slot {
      UnescapedAsIs(slot);
    } else if Unescaped(s).Some? {
      UnescapedShortens(s);
    }
  }

  // ---------------------------------------------------------------- the whole line, in force

  predicate OneLine(s: string) { '\n' !in s && '#' !in s }

  /** Nothing put into the standby's configuration holds a line end or starts a comment. */
  predicate OneLiners(s: Setup) { OneLine(s.primary) && OneLine(s.user) && OneLine(s.password) && OneLine(s.slot) }

  lemma {:induction false} DoubledOnOneLine(s: string)
    requires OneLine(s)
    ensures OneLine(DoubleQuotes(s))
  {
    if s != "" { DoubledOnOneLine(s[1..]); }
  }

  lemma QuotedIsCleanLine(s: string)
    requires OneLine(s)
    ensures Clean(Quoted(s))
  {
    assert !IsSpace('\'');
    assert Quoted(s)[|Quoted(s)| - 1] == '\'';
  }

  lemma OneLineAppend(a: string, b: string)
    requires OneLine(a) && OneLine(b)
    ensures OneLine(a + b)
  {
  }

  lemma ConninfoOnOneLine(s: Setup)
    requires OneLiners(s)
    ensures OneLine(Conninfo(s))
  {
    OneLineAppend("host=", s.primary);
    OneLineAppend("host=" + s.primary, " port=");
    OneLineAppend("host=" + s.primary + " port=", Digits(s.port));
    OneLineAppend(" user=", s.user);
    OneLineAppend(" password=", s.password);
    var target, user := "host=" + s.primary + " port=" + Digits(s.port), if s.user != "" then " user=" + s.user else "";
    OneLineAppend(target, user);
    OneLineAppend(target + user, if s.password != "" then " password=" + s.password else "");
  }

  lemma BothAreClean(s: Setup)
    requires OneLiners(s)
    ensures Clean(Quoted(DoubleQuotes(Conninfo(s)))) && Clean(Quoted(s.slot))
  {
    ConninfoOnOneLine(s);
    DoubledOnOneLine(Conninfo(s));
    QuotedIsCleanLine(DoubleQuotes(Conninfo(s)));
    QuotedIsCleanLine(s.slot);
  }

  /** Two settings written one after the other: the first of them is in force as it was written. */
  lemma FirstOfTwo(content: string, k: string, v: string, j: string, u: string)
    requires Plain(k) && Clean(v) && Plain(j) && Clean(u) && !(j <= k)
    ensures InForce(Strip(content, k) + (k + " = " + v + "\n"), k) == Some(v)
    ensures InForce(Strip(Strip(content, k) + (k + " = " + v + "\n"), j) + (j + " = " + u + "\n"), k) == Some(v)
  {
    PutBackInForce(content, k, v, k);
    PutBackInForce(Strip(content, k) + (k + " = " + v + "\n"), j, u, k);
  }

  /** Putting two other settings back leaves one in force as it was. */
  lemma PutBackBeside(content: string, identity: map<string, string>, name: string)
    requires forall j :: j in identity ==> j in IdentitySettings && Clean(identity[j])
    requires !("port" <= name) && !("listen_addresses" <= name)
    ensures InForce(Restored(Restored(content, identity, "port"), identity, "listen_addresses"), name) == InForce(content, name)
  {
    RestoredInForce(content, identity, "port", name);
    RestoredInForce(Restored(content, identity, "port"), identity, "listen_addresses", name);
  }

  lemma NamesApart(name: string)
    requires name == "primary_conninfo"
    ensures !("port" <= name) && !("listen_addresses" <= name) && !("primary_slot_name" <= name)
  {
    assert name[0] == 'p' && name[1] == 'r' && name[8] == 'c';
  }

  lemma BaseConninfo(s: Setup, existing: string, k: string)
    requires OneLiners(s) && k == "primary_conninfo"
    ensures InForce(Base(s, existing), k) == Some(Quoted(DoubleQuotes(Conninfo(s))))
  {
    NamesArePlain();
    NamesApart(k);
    BothAreClean(s);
    var v, u := Quoted(DoubleQuotes(Conninfo(s))), Quoted(s.slot);
    FirstOfTwo(existing, k, v, "primary_slot_name", u);
    assert ConninfoLine(s) + "\n" == k + " = " + v + "\n";
    assert SlotLine(s) + "\n" == "primary_slot_name" + " = " + u + "\n";
  }

  /**
   After the rewrite, whatever was in the file and whatever is put back: the connection string in
   force, read as PostgreSQL reads it, names the host and port to follow, and the user and
   password if there are any.
   */
  lemma FollowsThePrimary(s: Setup, identity: map<string, string>, existing: string, k: string)
    requires forall j :: j in identity ==> j in IdentitySettings && Clean(identity[j])
    requires OneLiners(s) && '\\' !in Conninfo(s) && ' ' !in s.primary && ' ' !in s.user && ' ' !in s.password
    requires k == "primary_conninfo"
    ensures var v := InForce(Rendered(s, identity, existing), k);
      v.Some? && Unquoted(v.value).Some? && Words(Unquoted(v.value).value) == Keywords(s)
  {
    NamesApart(k);
    PutBackBeside(Base(s, existing), identity, k);
    BaseConninfo(s, existing, k);
    QuotingReadsBack(Conninfo(s));
    ConninfoReadBack(s);
  }
}
