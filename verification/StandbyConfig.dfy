/**
 The configuration text of a rebuilt node: which address settings are captured before the
 copy, how assignments are stripped and appended to postgresql.auto.conf afterwards, and what
 the two files say when they are read back.
 */
module StandbyConfig {

  import opened Common

  // ---------------------------------------------------------------- text

  /** Unicode white space, as Go's strings.TrimSpace sees it. */
  predicate IsSpace(c: char) {
    c == ' ' || '\t' <= c <= '\r' || c == '\U{0085}' || c == '\U{00A0}' || c == '\U{1680}'
    || '\U{2000}' <= c <= '\U{200A}' || c == '\U{2028}' || c == '\U{2029}' || c == '\U{202F}'
    || c == '\U{205F}' || c == '\U{3000}'
  }

  function TrimLeft(s: string): (r: string)
    ensures (r == "" || !IsSpace(r[0])) && forall c :: c in r ==> c in s
  {
    if s != "" && IsSpace(s[0]) then TrimLeft(s[1..]) else s
  }

  function TrimRight(s: string): (r: string)
    ensures r <= s && (r == "" || !IsSpace(r[|r| - 1])) && (|r| < |s| ==> IsSpace(s[|r|]))
  {
    if s != "" && IsSpace(s[|s| - 1]) then TrimRight(s[..|s| - 1]) else s
  }

  function TrimSpace(s: string): string { TrimRight(TrimLeft(s)) }

  /** The lines of a text, split at every newline; never empty. */
  function Split(s: string): (lines: seq<string>)
    ensures |lines| > 0
    ensures forall i :: 0 <= i < |lines| ==> '\n' !in lines[i]
  {
    if s == "" then [""]
    else if s[0] == '\n' then [""] + Split(s[1..])
    else
      var rest := Split(s[1..]);
      [[s[0]] + rest[0]] + rest[1..]
  }

  function Join(lines: seq<string>): string {
    if |lines| == 0 then "" else if |lines| == 1 then lines[0] else lines[0] + "\n" + Join(lines[1..])
  }

  /** The position of the first `c`, or the length if there is none. */
  function IndexOf(s: string, c: char): (i: nat)
    ensures i <= |s| && c !in s[..i] && (i < |s| ==> s[i] == c)
  {
    if s == "" || s[0] == c then 0 else 1 + IndexOf(s[1..], c)
  }

  // ---------------------------------------------------------------- one line, one file

  const IdentitySettings: seq<string> := ["port", "listen_addresses"]

  /** What one line of a configuration file assigns, if anything. */
  function Assigns(line: string): Option<(string, string)> { AssignsTrimmed(TrimSpace(line)) }

  function AssignsTrimmed(t: string): Option<(string, string)> {
    if t == "" || "#" <= t then None
    else
      var eq := IndexOf(t, '=');
      if eq == |t| then None else AssignsAt(t, eq)
  }

  /** What a line whose first `=` is at `eq` assigns. */
  function AssignsAt(t: string, eq: nat): Option<(string, string)>
    requires eq < |t|
  {
    var value := ValueIn(t[eq + 1..]);
    if value == "" then None else Some((TrimSpace(t[..eq]), value))
  }

  /** The value after the `=`, up to a comment. */
  function ValueIn(raw: string): string { TrimSpace(raw[..IndexOf(raw, '#')]) }

  /** The value in force for `name` after these lines: the last assignment wins. */
  function Find(lines: seq<string>, name: string): Option<string> {
    if lines == [] then None
    else
      var a := Assigns(lines[|lines| - 1]);
      if a.Some? && a.value.0 == name then Some(a.value.1) else Find(lines[..|lines| - 1], name)
  }

  function InForce(content: string, name: string): Option<string> { Find(Split(content), name) }

  /** The lines that do not start with `setting`. */
  function Keep(lines: seq<string>, setting: string): (kept: seq<string>)
    ensures forall l :: l in kept ==> l in lines
  {
    if lines == [] then []
    else if setting <= TrimSpace(lines[|lines| - 1]) then Keep(lines[..|lines| - 1], setting)
    else Keep(lines[..|lines| - 1], setting) + [lines[|lines| - 1]]
  }

  predicate EndsLine(s: string) { s == "" || s[|s| - 1] == '\n' }

  function Strip(content: string, setting: string): (r: string)
    ensures EndsLine(r)
  {
    var out := Join(Keep(Split(content), setting));
    if EndsLine(out) then out else out + "\n"
  }

  /** The identity settings these lines assign. */
  function SettingsOf(lines: seq<string>): map<string, string> {
    map k | k in IdentitySettings && Find(lines, k).Some? :: Find(lines, k).value
  }

  /** settingsIn: the identity settings a file assigns. */
  function Settings(content: string): map<string, string> { SettingsOf(Split(content)) }

  lemma FindOneMore(lines: seq<string>, line: string, name: string)
    ensures var a := Assigns(line);
      Find(lines + [line], name) == if a.Some? && a.value.0 == name then Some(a.value.1) else Find(lines, name)
  {
    assert (lines + [line])[..|lines|] == lines;
  }

  /** What `k` is after an assignment, if it was `before`. */
  predicate Follows(before: map<string, string>, after: map<string, string>, a: Option<(string, string)>, k: string) {
    if a.Some? && a.value.0 == k && k in IdentitySettings then k in after && after[k] == a.value.1
    else (k in after <==> k in before) && (k in before && k in after ==> after[k] == before[k])
  }

  lemma FollowsIsPut(before: map<string, string>, after: map<string, string>, a: Option<(string, string)>)
    requires forall k :: Follows(before, after, a, k)
    ensures after == Put(before, a)
  {
    var put := Put(before, a);
    forall k ensures k in after <==> k in put { assert Follows(before, after, a, k); }
    forall k | k in put ensures after[k] == put[k] { assert Follows(before, after, a, k); }
  }

  lemma SettingOneMore(lines: seq<string>, line: string, a: Option<(string, string)>, k: string)
    requires a == Assigns(line)
    ensures Follows(SettingsOf(lines), SettingsOf(lines + [line]), a, k)
  {
    FindOneMore(lines, line, k);
  }

  lemma OneMoreLine(lines: seq<string>, line: string)
    ensures SettingsOf(lines + [line]) == Put(SettingsOf(lines), Assigns(line))
  {
    var a := Assigns(line);
    forall k ensures Follows(SettingsOf(lines), SettingsOf(lines + [line]), a, k) {
      SettingOneMore(lines, line, a, k);
    }
    FollowsIsPut(SettingsOf(lines), SettingsOf(lines + [line]), a);
  }

  /** The settings found once one more line has been looked at. */
  function Put(found: map<string, string>, a: Option<(string, string)>): map<string, string> {
    if a.Some? && a.value.0 in IdentitySettings then found[a.value.0 := a.value.1] else found
  }

  /** The body of the loop of settingsIn. */
  method LookAt(text: string, found: map<string, string>) returns (more: map<string, string>)
    ensures more == Put(found, Assigns(text))
  {
    more := found;
    var line := TrimSpace(text);
    if line == "" || "#" <= line {
      return;
    }
    var eq := IndexOf(line, '=');
    if eq == |line| {
      return;
    }
    var name := TrimSpace(line[..eq]);
    if name !in IdentitySettings {
      return;
    }
    var value := line[eq + 1..];
    value := TrimSpace(value[..IndexOf(value, '#')]);
    assert AssignsTrimmed(line) == AssignsAt(line, eq);
    if value != "" {
      more := found[name := value];
    }
  }

  method SettingsIn(content: string) returns (found: map<string, string>)
    ensures found == Settings(content)
  {
    found := map[];
    var lines := Split(content);
    for i := 0 to |lines|
      invariant found == SettingsOf(lines[..i])
    {
      assert lines[..i + 1] == lines[..i] + [lines[i]];
      OneMoreLine(lines[..i], lines[i]);
      found := LookAt(lines[i], found);
    }
    assert lines[..|lines|] == lines;
  }

  method StripSetting(content: string, setting: string) returns (out: string)
    ensures out == Strip(content, setting)
  {
    var kept: seq<string> := [];
    var lines := Split(content);
    for i := 0 to |lines|
      invariant kept == Keep(lines[..i], setting)
    {
      assert lines[..i + 1][..i] == lines[..i];
      if setting <= TrimSpace(lines[i]) {
        continue;
      }
      kept := kept + [lines[i]];
    }
    assert lines[..|lines|] == lines;
    out := Join(kept);
    if out != "" && out[|out| - 1] != '\n' {
      out := out + "\n";
    }
  }

  // ---------------------------------------------------------------- splitting and joining

  /** Putting one character in front of a text puts it in front of the first line, or starts a new one. */
  function Push(c: char, lines: seq<string>): seq<string>
    requires |lines| > 0
  {
    if c == '\n' then [""] + lines else [[c] + lines[0]] + lines[1..]
  }

  lemma SplitPush(s: string)
    requires s != ""
    ensures Split(s) == Push(s[0], Split(s[1..]))
  {
  }

  lemma PushAppend(c: char, a: seq<string>, b: seq<string>)
    requires |a| > 0
    ensures Push(c, a + b) == Push(c, a) + b
  {
    assert (a + b)[0] == a[0] && (a + b)[1..] == a[1..] + b;
  }

  lemma {:induction false} SplitAppend(a: string, b: string)
    ensures Split(a + "\n" + b) == Split(a) + Split(b)
  {
    var whole := a + "\n" + b;
    SplitPush(whole);
    if a == "" {
      assert whole[1..] == b;
    } else {
      assert whole[1..] == a[1..] + "\n" + b;
      SplitAppend(a[1..], b);
      SplitPush(a);
      PushAppend(a[0], Split(a[1..]), Split(b));
    }
  }

  lemma {:induction false} SplitLine(s: string)
    requires '\n' !in s
    ensures Split(s) == [s]
  {
    if s != "" {
      SplitLine(s[1..]);
      assert [s[0]] + s[1..] == s;
      assert Split(s[1..])[1..] == [];
    }
  }

  lemma {:induction false} SplitJoin(lines: seq<string>)
    requires |lines| > 0 && forall i :: 0 <= i < |lines| ==> '\n' !in lines[i]
    ensures Split(Join(lines)) == lines
  {
    SplitLine(lines[0]);
    if |lines| > 1 {
      SplitJoin(lines[1..]);
      SplitAppend(lines[0], Join(lines[1..]));
      assert [lines[0]] + lines[1..] == lines;
    }
  }

  lemma {:induction false} FindAppend(a: seq<string>, b: seq<string>, name: string)
    ensures Find(a + b, name) == if Find(b, name).Some? then Find(b, name) else Find(a, name)
  {
    if b == [] {
      assert a + b == a;
    } else {
      FindAppend(a, b[..|b| - 1], name);
      assert (a + b)[..|a + b| - 1] == a + b[..|b| - 1];
    }
  }

  lemma BlankFind(name: string)
    ensures InForce("", name) == None && Find([""], name) == None
  {
    var blank := [""];
    assert TrimLeft("") == "" && Assigns(blank[0]) == None;
    assert blank[..0] == [];
    assert Find(blank, name) == None;
    assert Split("") == blank;
  }

  /** A text that ends its last line can be read apart from what follows. */
  lemma InForceAppend(a: string, b: string, name: string)
    requires EndsLine(a)
    ensures InForce(a + b, name) == if InForce(b, name).Some? then InForce(b, name) else InForce(a, name)
  {
    if a == "" {
      assert a + b == b;
      BlankFind(name);
    } else {
      var head := a[..|a| - 1];
      assert a == head + "\n" + "";
      assert a + b == head + "\n" + b;
      SplitAppend(head, b);
      SplitAppend(head, "");
      FindAppend(Split(head), Split(b), name);
      FindAppend(Split(head), [""], name);
      BlankFind(name);
    }
  }

  // ---------------------------------------------------------------- stripping

  /** A setting's name as the code writes it: one bare word. */
  predicate Plain(s: string) {
    s != "" && forall i :: 0 <= i < |s| ==> s[i] != '=' && s[i] != '#' && !IsSpace(s[i])
  }

  /** A line starts with a plain word exactly when the name it assigns does. */
  lemma PrefixOfName(line: string, setting: string)
    requires Assigns(line).Some? && Plain(setting)
    ensures setting <= TrimSpace(line) <==> setting <= Assigns(line).value.0
  {
    var t := TrimSpace(line);
    assert t[0] == TrimLeft(line)[0];
    var before := t[..IndexOf(t, '=')];
    var name := TrimSpace(before);
    if before == "" {
      assert name == "";
    } else {
      assert TrimLeft(before) == before;
      assert name <= before <= t;
      // What follows the name is white space or the equals sign, and neither is in a plain word.
      assert |name| < |before| ==> t[|name|] == before[|name|];
      assert t[|name|] == '=' || IsSpace(t[|name|]);
    }
  }

  lemma {:induction false} KeepFind(lines: seq<string>, setting: string, name: string)
    requires Plain(setting)
    ensures Find(Keep(lines, setting), name) == if setting <= name then None else Find(lines, name)
  {
    if lines != [] {
      var init, last := lines[..|lines| - 1], lines[|lines| - 1];
      KeepFind(init, setting, name);
      if Assigns(last).Some? {
        PrefixOfName(last, setting);
      }
      FindOneMore(Keep(init, setting), last, name);
    }
  }

  /** Ending the last line of a text changes nothing it assigns. */
  lemma EndedFind(s: string, name: string)
    ensures InForce(s + "\n", name) == InForce(s, name)
  {
    SplitAppend(s, "");
    assert s + "\n" + "" == s + "\n";
    BlankFind(name);
    FindAppend(Split(s), [""], name);
  }

  /**
   Stripping removes the assignments of every name that starts with `setting`, and changes no
   other: a prefix is what decides, not the name.
   */
  lemma StripInForce(content: string, setting: string, name: string)
    requires Plain(setting)
    ensures InForce(Strip(content, setting), name) == if setting <= name then None else InForce(content, name)
  {
    var kept := Keep(Split(content), setting);
    KeepFind(Split(content), setting, name);
    if kept == [] {
      BlankFind(name);
    } else {
      assert forall i :: 0 <= i < |kept| ==> kept[i] in Split(content);
      SplitJoin(kept);
      EndedFind(Join(kept), name);
    }
  }

  // ---------------------------------------------------------------- what is written

  /** A value that was read from a file: bare of comments, line ends and outer blanks. */
  predicate Clean(v: string) {
    v != "" && '#' !in v && '\n' !in v && !IsSpace(v[0]) && !IsSpace(v[|v| - 1])
  }

  lemma TrimSpaceEnds(s: string)
    ensures forall c :: c in TrimSpace(s) ==> c in s
    ensures TrimSpace(s) != "" ==> !IsSpace(TrimSpace(s)[0]) && !IsSpace(TrimSpace(s)[|TrimSpace(s)| - 1])
  {
    var l, r := TrimLeft(s), TrimSpace(s);
    assert forall i :: 0 <= i < |r| ==> r[i] == l[i];
  }

  lemma AssignedIsClean(line: string)
    requires '\n' !in line && Assigns(line).Some?
    ensures Clean(Assigns(line).value.1)
  {
    var t := TrimSpace(line);
    var raw := t[IndexOf(t, '=') + 1..];
    TrimSpaceEnds(line);
    TrimSpaceEnds(raw[..IndexOf(raw, '#')]);
  }

  lemma {:induction false} FoundIsClean(lines: seq<string>, name: string)
    requires forall i :: 0 <= i < |lines| ==> '\n' !in lines[i]
    requires Find(lines, name).Some?
    ensures Clean(Find(lines, name).value)
  {
    var a := Assigns(lines[|lines| - 1]);
    if a.Some? && a.value.0 == name {
      AssignedIsClean(lines[|lines| - 1]);
    } else {
      FoundIsClean(lines[..|lines| - 1], name);
    }
  }

  /** Trimming leaves at least everything up to a character that is not white space. */
  lemma {:induction false} TrimRightKeeps(s: string, i: nat)
    requires i < |s| && !IsSpace(s[i])
    ensures s[..i + 1] <= TrimRight(s)
  {
    if IsSpace(s[|s| - 1]) {
      TrimRightKeeps(s[..|s| - 1], i);
      assert s[..|s| - 1][..i + 1] == s[..i + 1];
    }
  }

  lemma {:induction false} FirstAt(s: string, c: char, i: nat)
    requires i < |s| && s[i] == c && c !in s[..i]
    ensures IndexOf(s, c) == i
  {
    if i > 0 {
      assert s[..i][0] == s[0];
      assert s[1..][..i - 1] == s[..i][1..];
      FirstAt(s[1..], c, i - 1);
    }
  }

  lemma TrimWord(k: string)
    requires Plain(k)
    ensures TrimSpace(k + " ") == k
  {
    assert !IsSpace((k + " ")[0]);
    assert TrimLeft(k + " ") == k + " ";
    TrimRightKeeps(k + " ", |k| - 1);
    assert (k + " ")[..|k|] == k;
  }

  /** A line written as `name = text` assigns that name or nothing. */
  lemma WrittenName(k: string, x: string)
    requires Plain(k)
    ensures Assigns(k + " = " + x).None? || Assigns(k + " = " + x).value.0 == k
  {
    var line := k + " = " + x;
    assert line[0] == k[0] && TrimLeft(line) == line;
    assert line[|k| + 1] == '=' && !IsSpace('=');
    TrimRightKeeps(line, |k| + 1);
    var t := TrimSpace(line);
    assert t[..|k| + 1] == line[..|k| + 1] == k + " ";
    FirstAt(t, '=', |k| + 1);
    TrimWord(k);
  }

  lemma NoneAt(s: string, c: char)
    requires c !in s
    ensures IndexOf(s, c) == |s|
  {
  }

  lemma ValueAsWritten(v: string)
    requires Clean(v)
    ensures ValueIn(" " + v) == v
  {
    var raw := " " + v;
    NoneAt(raw, '#');
    assert raw[..|raw|] == raw;
    assert raw[1..] == v && IsSpace(raw[0]);
    assert TrimLeft(v) == v && TrimLeft(raw) == v && TrimRight(v) == v;
  }

  lemma AlreadyTrim(line: string)
    requires line != "" && !IsSpace(line[0]) && !IsSpace(line[|line| - 1])
    ensures TrimSpace(line) == line
  {
  }

  /** A clean value written as `name = value` is read back as it was. */
  lemma WrittenValue(k: string, v: string)
    requires Plain(k) && Clean(v)
    ensures Assigns(k + " = " + v) == Some((k, v))
  {
    var line, eq := k + " = " + v, |k| + 1;
    assert line[0] == k[0] && line[|line| - 1] == v[|v| - 1];
    AlreadyTrim(line);
    assert line[..eq] == k + " ";
    FirstAt(line, '=', eq);
    TrimWord(k);
    assert line[eq + 1..] == " " + v;
    ValueAsWritten(v);
  }

  // ---------------------------------------------------------------- a rebuild's configuration

  /** What one rebuild writes into the standby's configuration. */
  datatype Setup = Setup(primary: string, port: nat, user: string, password: string, slot: string)

  function Digits(n: nat): (s: string)
    ensures forall c :: c in s ==> '0' <= c <= '9'
  {
    if n < 10 then [('0' as int + n) as char] else Digits(n / 10) + [('0' as int + n % 10) as char]
  }

  function Conninfo(s: Setup): string {
    "host=" + s.primary + " port=" + Digits(s.port)
    + (if s.user != "" then " user=" + s.user else "")
    + (if s.password != "" then " password=" + s.password else "")
  }

  /** strings.ReplaceAll(s, "'", "''") */
  function DoubleQuotes(s: string): string {
    if s == "" then "" else (if s[0] == '\'' then "\'\'" else [s[0]]) + DoubleQuotes(s[1..])
  }

  function Quoted(s: string): string { "'" + s + "'" }

  function ConninfoLine(s: Setup): string { "primary_conninfo" + " = " + Quoted(DoubleQuotes(Conninfo(s))) }

  function SlotLine(s: Setup): string { "primary_slot_name" + " = " + Quoted(s.slot) }

  /** One captured setting, stripped and put back at the end. */
  function Restored(content: string, identity: map<string, string>, k: string): string {
    if k in identity then Strip(content, k) + (k + " = " + identity[k] + "\n") else content
  }

  /** The text with the primary and the slot replaced. */
  function Base(s: Setup, existing: string): string {
    var c := Strip(existing, "primary_conninfo") + (ConninfoLine(s) + "\n");
    if s.slot != "" then Strip(c, "primary_slot_name") + (SlotLine(s) + "\n") else c
  }

  /** The new postgresql.auto.conf. */
  function Rendered(s: Setup, identity: map<string, string>, existing: string): string {
    Restored(Restored(Base(s, existing), identity, "port"), identity, "listen_addresses")
  }

  /** A configuration file that may be missing or unreadable. */
  type File = Option<string>

  function FileSettings(f: File): map<string, string> { if f.Some? then Settings(f.value) else map[] }

  /** captureIdentity: postgresql.auto.conf is read last because it wins. */
  function Captured(conf: File, auto: File): map<string, string> { FileSettings(conf) + FileSettings(auto) }

  /** The two configuration files of a data directory, and the rebuild that rewrites them. */
  class ConfigDir {
    var conf: File
    var auto: File
    var identity: map<string, string>

    constructor (conf: File, auto: File)
      ensures this.conf == conf && this.auto == auto && identity == map[]
    {
      this.conf, this.auto, identity := conf, auto, map[];
    }

    method CaptureIdentity()
      modifies `identity
      ensures identity == Captured(conf, auto)
    {
      identity := map[];
      var files := [conf, auto];
      for i := 0 to |files|
        invariant identity == if i == 0 then map[] else if i == 1 then FileSettings(conf) else Captured(conf, auto)
      {
        if files[i].None? {
          continue;
        }
        var found := SettingsIn(files[i].value);
        identity := identity + found;
      }
    }

    /** The base backup replaces both files with the primary's. */
    method TakeCopy(newConf: File, newAuto: File)
      modifies `conf, `auto
      ensures conf == newConf && auto == newAuto
    {
      conf, auto := newConf, newAuto;
    }

    /** writeStandbyConfig, once standby.signal is in place: a missing file reads as empty. */
    method WriteStandbyConfig(s: Setup)
      modifies `auto
      ensures auto == Some(Rendered(s, identity, if old(auto).Some? then old(auto).value else ""))
    {
      var existing := if auto.Some? then auto.value else "";
      var content := StripSetting(existing, "primary_conninfo");
      content := content + (ConninfoLine(s) + "\n");
      if s.slot != "" {
        content := StripSetting(content, "primary_slot_name");
        content := content + (SlotLine(s) + "\n");
      }
      ghost var base := content;
      for i := 0 to |IdentitySettings|
        invariant content ==
          if i == 0 then base
          else if i == 1 then Restored(base, identity, "port")
          else Restored(Restored(base, identity, "port"), identity, "listen_addresses")
      {
        var setting := IdentitySettings[i];
        if setting !in identity {
          continue;
        }
        content := StripSetting(content, setting);
        content := content + (setting + " = " + identity[setting] + "\n");
      }
      auto := Some(content);
    }

    /** A rebuild's configuration steps: capture, copy, write; the node keeps its own address. */
    method Reconfigure(s: Setup, newConf: File, newAuto: File)
      modifies this
      ensures forall k :: k in old(Captured(conf, auto)) ==>
                k in Captured(conf, auto) && Captured(conf, auto)[k] == old(Captured(conf, auto))[k]
    {
      CaptureIdentity();
      ghost var before := identity;
      AllCapturedClean(conf, auto);
      TakeCopy(newConf, newAuto);
      WriteStandbyConfig(s);
      forall k | k in before ensures k in Captured(conf, auto) && Captured(conf, auto)[k] == before[k] {
        RenderedCaptured(s, before, if newAuto.Some? then newAuto.value else "", newConf, k);
      }
    }
  }

  lemma CapturedIsClean(conf: File, auto: File, k: string)
    ensures k in Captured(conf, auto) ==> k in IdentitySettings && Clean(Captured(conf, auto)[k])
  {
    if k in FileSettings(auto) {
      FoundIsClean(Split(auto.value), k);
    } else if k in FileSettings(conf) {
      FoundIsClean(Split(conf.value), k);
    }
  }

  lemma AllCapturedClean(conf: File, auto: File)
    ensures forall k :: k in Captured(conf, auto) ==> k in IdentitySettings && Clean(Captured(conf, auto)[k])
  {
    forall k | k in Captured(conf, auto) ensures k in IdentitySettings && Clean(Captured(conf, auto)[k]) {
      CapturedIsClean(conf, auto, k);
    }
  }

  /** A line of its own, ended, at the end of a text: what it assigns is in force. */
  lemma LineInForce(line: string, name: string)
    requires '\n' !in line
    ensures InForce(line + "\n", name) ==
              if Assigns(line).Some? && Assigns(line).value.0 == name then Some(Assigns(line).value.1) else None
  {
    EndedFind(line, name);
    SplitLine(line);
    var one := [line];
    assert one[|one| - 1] == line && one[..|one| - 1] == [];
    assert Find([], name) == None;
  }

  lemma IdentityNamesArePlain()
    ensures forall k :: k in IdentitySettings ==> Plain(k)
  {
    assert Plain("port") && Plain("listen_addresses");
  }

  /** What a clean value written on a line of its own puts in force. */
  lemma WrittenInForce(k: string, v: string, name: string)
    requires Plain(k) && Clean(v)
    ensures InForce(k + " = " + v + "\n", name) == if k == name then Some(v) else None
  {
    WrittenValue(k, v);
    assert '\n' !in k by { assert IsSpace('\n'); }
    LineInForce(k + " = " + v, name);
  }

  lemma PutBackInForce(content: string, k: string, v: string, name: string)
    requires Plain(k) && Clean(v)
    ensures InForce(Strip(content, k) + (k + " = " + v + "\n"), name) ==
              if k == name then Some(v) else if k <= name then None else InForce(content, name)
  {
    WrittenInForce(k, v, name);
    StripInForce(content, k, name);
    InForceAppend(Strip(content, k), k + " = " + v + "\n", name);
  }

  /** Putting a captured setting back changes that setting, and the names it is a prefix of. */
  lemma RestoredInForce(content: string, identity: map<string, string>, k: string, name: string)
    requires k in IdentitySettings && (k in identity ==> Clean(identity[k]))
    ensures InForce(Restored(content, identity, k), name) ==
              if k !in identity then InForce(content, name)
              else if k == name then Some(identity[k])
              else if k <= name then None
              else InForce(content, name)
  {
    IdentityNamesArePlain();
    if k in identity { PutBackInForce(content, k, identity[k], name); }
  }

  lemma RenderedIdentity(s: Setup, identity: map<string, string>, existing: string, k: string)
    requires forall j :: j in identity ==> j in IdentitySettings && Clean(identity[j])
    requires k in identity
    ensures InForce(Rendered(s, identity, existing), k) == Some(identity[k])
  {
    var base := Base(s, existing);
    RestoredInForce(base, identity, "port", k);
    RestoredInForce(Restored(base, identity, "port"), identity, "listen_addresses", k);
  }

  /** What is put back is what a capture of the files afterwards finds. */
  lemma RenderedCaptured(s: Setup, identity: map<string, string>, existing: string, conf: File, k: string)
    requires forall j :: j in identity ==> j in IdentitySettings && Clean(identity[j])
    requires k in identity
    ensures var after := Captured(conf, Some(Rendered(s, identity, existing))); k in after && after[k] == identity[k]
  {
    RenderedIdentity(s, identity, existing, k);
  }

  /**
   Whatever the node's own files said, whatever files the base backup brought, and whatever
   the connection string holds: every address setting captured before the copy is the one in
   force when both files are read back afterwards.
   */
  lemma IdentitySurvives(s: Setup, conf: File, auto: File, newConf: File, newAuto: File, k: string)
    ensures var identity := Captured(conf, auto);
      var written := Rendered(s, identity, if newAuto.Some? then newAuto.value else "");
      k in identity ==> k in Captured(newConf, Some(written)) && Captured(newConf, Some(written))[k] == identity[k]
  {
    AllCapturedClean(conf, auto);
    if k in Captured(conf, auto) {
      RenderedCaptured(s, Captured(conf, auto), if newAuto.Some? then newAuto.value else "", newConf, k);
    }
  }

  // ---------------------------------------------------------------- settings the rebuild does not own

  /** No name the rebuild writes is a prefix of this one. */
  predicate Unowned(name: string) {
    && !("primary_conninfo" <= name) && !("primary_slot_name" <= name)
    && !("port" <= name) && !("listen_addresses" <= name)
  }

  /** The text a rebuild appends for the primary and the slot. */
  function Appended(s: Setup): string {
    if s.slot != "" then (ConninfoLine(s) + "\n") + (SlotLine(s) + "\n") else ConninfoLine(s) + "\n"
  }

  /** What that text assigns to `name`, which only a line end inside a value can make it do. */
  function Injected(s: Setup, name: string): Option<string> { InForce(Appended(s), name) }

  /** Replacing `k` by a text of its own shows only what that text says about other names. */
  lemma Replaced(content: string, k: string, text: string, name: string)
    requires Plain(k) && !(k <= name)
    ensures InForce(Strip(content, k) + text, name) ==
              if InForce(text, name).Some? then InForce(text, name) else InForce(content, name)
  {
    StripInForce(content, k, name);
    InForceAppend(Strip(content, k), text, name);
  }

  lemma ReplacedTwice(content: string, k: string, a: string, j: string, b: string, name: string)
    requires Plain(k) && !(k <= name) && Plain(j) && !(j <= name) && EndsLine(a)
    ensures InForce(Strip(Strip(content, k) + a, j) + b, name) ==
              if InForce(a + b, name).Some? then InForce(a + b, name) else InForce(content, name)
  {
    Replaced(content, k, a, name);
    Replaced(Strip(content, k) + a, j, b, name);
    InForceAppend(a, b, name);
  }

  lemma NamesArePlain()
    ensures Plain("primary_conninfo") && Plain("primary_slot_name")
  {
  }

  lemma BaseUnowned(s: Setup, existing: string, name: string)
    requires Unowned(name)
    ensures InForce(Base(s, existing), name) ==
              if Injected(s, name).Some? then Injected(s, name) else InForce(existing, name)
  {
    NamesArePlain();
    if s.slot != "" {
      ReplacedTwice(existing, "primary_conninfo", ConninfoLine(s) + "\n", "primary_slot_name", SlotLine(s) + "\n", name);
    } else {
      Replaced(existing, "primary_conninfo", ConninfoLine(s) + "\n", name);
    }
  }

  lemma RenderedUnowned(s: Setup, identity: map<string, string>, existing: string, name: string)
    requires forall j :: j in identity ==> j in IdentitySettings && Clean(identity[j])
    requires Unowned(name)
    ensures InForce(Rendered(s, identity, existing), name) ==
              if Injected(s, name).Some? then Injected(s, name) else InForce(existing, name)
  {
    var base := Base(s, existing);
    RestoredInForce(base, identity, "port", name);
    RestoredInForce(Restored(base, identity, "port"), identity, "listen_addresses", name);
    BaseUnowned(s, existing, name);
  }

  /**
   Exactly when a rebuild leaves every setting it does not own alone, whatever the file held:
   if and only if the text it appends for the primary and the slot assigns none of them.
   */
  lemma OthersLeftAloneExactly(s: Setup, identity: map<string, string>)
    requires forall j :: j in identity ==> j in IdentitySettings && Clean(identity[j])
    ensures (forall existing, name :: Unowned(name) ==>
               InForce(Rendered(s, identity, existing), name) == InForce(existing, name))
            <==> (forall name :: Unowned(name) ==> Injected(s, name).None?)
  {
    forall existing, name | Unowned(name)
      ensures InForce(Rendered(s, identity, existing), name) ==
                if Injected(s, name).Some? then Injected(s, name) else InForce(existing, name)
    {
      RenderedUnowned(s, identity, existing, name);
    }
    forall name | Unowned(name) && Injected(s, name).Some?
      ensures InForce(Rendered(s, identity, ""), name) != InForce("", name)
    {
      BlankFind(name);
    }
  }

  lemma {:induction false} DoublingAddsNoLine(s: string)
    requires '\n' !in s
    ensures '\n' !in DoubleQuotes(s)
  {
    if s != "" {
      DoublingAddsNoLine(s[1..]);
    }
  }

  lemma NewlineFreeLine(k: string, x: string, name: string)
    requires Plain(k) && '\n' !in x && k != name
    ensures InForce(k + " = " + x + "\n", name) == None
  {
    assert IsSpace('\n') && '\n' !in k;
    WrittenName(k, x);
    LineInForce(k + " = " + x, name);
  }

  /** Two whole lines one after the other, neither assigning `name`. */
  lemma NeitherLine(k: string, x: string, j: string, y: string, name: string)
    requires Plain(k) && '\n' !in x && k != name
    requires Plain(j) && '\n' !in y && j != name
    ensures InForce((k + " = " + x + "\n") + (j + " = " + y + "\n"), name) == None
  {
    NewlineFreeLine(k, x, name);
    NewlineFreeLine(j, y, name);
    InForceAppend(k + " = " + x + "\n", j + " = " + y + "\n", name);
  }

  /** The connection string is free of line ends when everything put into it is. */
  lemma ConninfoNewlineFree(s: Setup)
    requires '\n' !in s.primary && '\n' !in s.user && '\n' !in s.password
    ensures '\n' !in Conninfo(s)
  {
  }

  /** Values without line ends inject nothing. */
  lemma NewlineFreeInjectsNothing(s: Setup, name: string)
    requires '\n' !in s.primary && '\n' !in s.user && '\n' !in s.password && '\n' !in s.slot
    requires Unowned(name)
    ensures Injected(s, name).None?
  {
    NamesArePlain();
    ConninfoNewlineFree(s);
    DoublingAddsNoLine(Conninfo(s));
    if s.slot != "" {
      NeitherLine("primary_conninfo", Quoted(DoubleQuotes(Conninfo(s))), "primary_slot_name", Quoted(s.slot), name);
    } else {
      NewlineFreeLine("primary_conninfo", Quoted(DoubleQuotes(Conninfo(s))), name);
    }
  }

  /** A line end inside a value starts a line of its own, and that line counts. */
  lemma LineEndInjects(head: string, name: string, v: string)
    requires Plain(name) && Clean(v)
    ensures InForce(head + "\n" + (name + " = " + v + "\n"), name) == Some(v)
  {
    WrittenValue(name, v);
    LineInForce(name + " = " + v, name);
    InForceAppend(head + "\n", name + " = " + v + "\n", name);
  }

  /** A slot name that closes its quote and starts a line of its own makes two lines, each well formed. */
  lemma SlotLineBreaks(s: Setup, tail: string, prefix: string)
    requires s.slot == "a'\n" + tail && SlotLine(s) == prefix + Quoted(s.slot)
    ensures SlotLine(s) + "\n" == (prefix + "'a'") + "\n" + (tail + "'" + "\n")
  {
    assert Quoted(s.slot) == "'a'" + "\n" + (tail + "'");
  }

  lemma QuotedIsClean(v: string)
    requires '#' !in v && '\n' !in v
    ensures Clean("'" + v + "'")
  {
  }

  lemma Requoted(name: string, v: string)
    ensures name + " = '" + v + "'" + "\n" == name + " = " + ("'" + v + "'") + "\n"
  {
  }

  lemma SecondLineCounts(head: string, name: string, v: string)
    requires Plain(name) && Clean("'" + v + "'")
    ensures InForce(head + "\n" + (name + " = '" + v + "'" + "\n"), name) == Some("'" + v + "'")
  {
    Requoted(name, v);
    LineEndInjects(head, name, "'" + v + "'");
  }

  /** A slot name with a line end in it gives the file a setting nobody asked for. */
  lemma SlotCanInject(s: Setup, name: string, v: string)
    requires s.slot == "a'\n" + (name + " = '" + v) && Plain(name) && '#' !in v && '\n' !in v && '\'' !in v
    ensures SlotLine(s) + "\n" == ("primary_slot_name" + " = " + "'a'") + "\n" + (name + " = '" + v + "'" + "\n")
    ensures Injected(s, name) == Some("'" + v + "'")
  {
    var prefix := "primary_slot_name" + " = ";
    QuotedIsClean(v);
    SlotLineBreaks(s, name + " = '" + v, prefix);
    SecondLineCounts(prefix + "'a'", name, v);
    InForceAppend(ConninfoLine(s) + "\n", SlotLine(s) + "\n", name);
  }
}
