/** The host attributes read at start-up (attributes.go): the platform
    details parsed from the os-release file, and the run's custom key-value
    attributes. The parser follows the program's own simplified reading of
    the os-release format: a line is cut at `=`, the value is the text up to
    the next `=`, and double quotes are trimmed from both ends; there is no
    shell unquoting. */
module Attributes {
  import opened Wrappers
  import Text

  datatype Platform = Platform(
    name: string,
    version: string,
    id: string,
    idLike: string,
    prettyName: string,
    versionID: string,
    homeURL: string,
    supportURL: string,
    bugReportURL: string,
    privacyPolicyURL: string,
    versionCodename: string,
    ubuntuCodename: string)

  const EmptyPlatform := Platform("", "", "", "", "", "", "", "", "", "", "", "")

  /** The twelve keys the parser recognises, in field order. */
  const Keys: seq<string> := [
    "NAME", "VERSION", "ID", "ID_LIKE", "PRETTY_NAME", "VERSION_ID", "HOME_URL",
    "SUPPORT_URL", "BUG_REPORT_URL", "PRIVACY_POLICY_URL", "VERSION_CODENAME", "UBUNTU_CODENAME"]

  /** Field `i` of a platform, in the order of `Keys`. */
  function FieldAt(p: Platform, i: nat): string
    requires i < |Keys|
  {
    match i
    case 0 => p.name
    case 1 => p.version
    case 2 => p.id
    case 3 => p.idLike
    case 4 => p.prettyName
    case 5 => p.versionID
    case 6 => p.homeURL
    case 7 => p.supportURL
    case 8 => p.bugReportURL
    case 9 => p.privacyPolicyURL
    case 10 => p.versionCodename
    case _ => p.ubuntuCodename
  }

  /** Field `i` replaced by `v`. */
  function WithFieldAt(p: Platform, i: nat, v: string): (q: Platform)
    requires i < |Keys|
    ensures FieldAt(q, i) == v
    ensures forall j :: 0 <= j < |Keys| && j != i ==> FieldAt(q, j) == FieldAt(p, j)
  {
    match i
    case 0 => p.(name := v)
    case 1 => p.(version := v)
    case 2 => p.(id := v)
    case 3 => p.(idLike := v)
    case 4 => p.(prettyName := v)
    case 5 => p.(versionID := v)
    case 6 => p.(homeURL := v)
    case 7 => p.(supportURL := v)
    case 8 => p.(bugReportURL := v)
    case 9 => p.(privacyPolicyURL := v)
    case 10 => p.(versionCodename := v)
    case _ => p.(ubuntuCodename := v)
  }

  /** Two platforms that agree on every field are the same. */
  lemma FieldsDetermine(p: Platform, q: Platform)
    requires forall i :: 0 <= i < |Keys| ==> FieldAt(p, i) == FieldAt(q, i)
    ensures p == q
  {
    assert FieldAt(p, 0) == FieldAt(q, 0) && FieldAt(p, 1) == FieldAt(q, 1) && FieldAt(p, 2) == FieldAt(q, 2);
    assert FieldAt(p, 3) == FieldAt(q, 3) && FieldAt(p, 4) == FieldAt(q, 4) && FieldAt(p, 5) == FieldAt(q, 5);
    assert FieldAt(p, 6) == FieldAt(q, 6) && FieldAt(p, 7) == FieldAt(q, 7) && FieldAt(p, 8) == FieldAt(q, 8);
    assert FieldAt(p, 9) == FieldAt(q, 9) && FieldAt(p, 10) == FieldAt(q, 10) && FieldAt(p, 11) == FieldAt(q, 11);
  }

  lemma KeysDistinct()
    ensures forall i, j :: 0 <= i < j < |Keys| ==> Keys[i] != Keys[j]
  {
  }

  /** The position of `key` among `Keys` from `from` on. */
  function KeyIndexFrom(key: string, from: nat): (r: Option<nat>)
    requires from <= |Keys|
    ensures r.Some? ==> from <= r.value < |Keys| && Keys[r.value] == key
    ensures r.None? ==> forall i :: from <= i < |Keys| ==> Keys[i] != key
    decreases |Keys| - from
  {
    if from == |Keys| then None
    else if Keys[from] == key then Some(from)
    else KeyIndexFrom(key, from + 1)
  }

  /** Which field the parser's switch picks for `key`, if any. */
  function KeyIndex(key: string): (r: Option<nat>)
    ensures r.Some? ==> r.value < |Keys| && Keys[r.value] == key
    ensures r.None? <==> key !in Keys
  {
    KeyIndexFrom(key, 0)
  }

  lemma KeyIndexOf(i: nat)
    requires i < |Keys|
    ensures KeyIndex(Keys[i]) == Some(i)
  {
    KeysDistinct();
  }

  /** The field a key names, read. */
  function Field(p: Platform, key: string): (v: Option<string>)
    ensures v.Some? <==> key in Keys
  {
    match KeyIndex(key)
    case None => None
    case Some(i) => Some(FieldAt(p, i))
  }

  /** The parser's switch: a known key sets exactly its own field; any other
      key changes nothing. */
  function SetField(p: Platform, key: string, value: string): (q: Platform)
    ensures key in Keys ==> Field(q, key) == Some(value)
    ensures forall k :: k != key ==> Field(q, k) == Field(p, k)
    ensures key !in Keys ==> q == p
  {
    match KeyIndex(key)
    case None => p
    case Some(i) =>
      KeysDistinct();
      WithFieldAt(p, i, value)
  }

  /** The key of a line: the text before its first `=`, when it has one. */
  function LineKey(line: string): Option<string>
  {
    if '=' in line then Some(Text.Before(line, '=')) else None
  }

  /** The value of a line: the text between its first and second `=`, with
      double quotes trimmed from both ends. */
  function LineValue(line: string): string
    requires '=' in line
  {
    Text.Trim(Text.Before(Text.After(line, '='), '='), '"')
  }

  /** One line of the file: split at `=`, skipped with fewer than two
      pieces, otherwise the first piece is the key and the second, trimmed,
      the value. */
  function ParseLine(p: Platform, line: string): (q: Platform)
    ensures LineKey(line).None? ==> q == p
    ensures LineKey(line).Some? ==> q == SetField(p, LineKey(line).value, LineValue(line))
  {
    var parts := Text.Split(line, '=');
    Text.SplitHasSecond(line, '=');
    if |parts| < 2 then p
    else
      Text.SplitHead(line, '=');
      Text.SplitTail(line, '=');
      Text.SplitHead(Text.After(line, '='), '=');
      SetField(p, parts[0], Text.Trim(parts[1], '"'))
  }

  /** The lines read one after another, starting from `p`. */
  function ParseLines(p: Platform, lines: seq<string>): Platform
  {
    if |lines| == 0 then p else ParseLine(ParseLines(p, lines[..|lines| - 1]), lines[|lines| - 1])
  }

  /** `newPlatformAttributes`: a file that cannot be opened gives the empty
      platform; otherwise its lines are parsed in order. */
  function NewPlatformAttributes(file: Option<seq<string>>): (p: Platform)
    ensures file.None? ==> p == EmptyPlatform
  {
    match file
    case None => EmptyPlatform
    case Some(lines) => ParseLines(EmptyPlatform, lines)
  }

  /** Line `i` is the last line with key `k`. */
  predicate LastWithKey(lines: seq<string>, k: string, i: int)
  {
    0 <= i < |lines| && LineKey(lines[i]) == Some(k) && forall j :: i < j < |lines| ==> LineKey(lines[j]) != Some(k)
  }

  /** What one line does to the field of key `k`. */
  lemma FieldAfterLine(q: Platform, line: string, k: string)
    requires KeyIndex(k).Some?
    ensures LineKey(line) == Some(k) ==> Field(ParseLine(q, line), k) == Some(LineValue(line))
    ensures LineKey(line) != Some(k) ==> Field(ParseLine(q, line), k) == Field(q, k)
  {
  }

  /** The last line carrying a known key decides its field. */
  lemma {:induction false} LastOccurrenceWins(p: Platform, lines: seq<string>, k: string, i: int)
    requires KeyIndex(k).Some? && LastWithKey(lines, k, i)
    ensures Field(ParseLines(p, lines), k) == Some(LineValue(lines[i]))
  {
    var init := lines[..|lines| - 1];
    var last := lines[|lines| - 1];
    var q := ParseLines(p, init);
    assert ParseLines(p, lines) == ParseLine(q, last);
    FieldAfterLine(q, last, k);
    if i < |lines| - 1 {
      assert init[i] == lines[i];
      assert LastWithKey(init, k, i);
      LastOccurrenceWins(p, init, k, i);
    }
  }

  /** With no line carrying a known key, its field keeps its starting
      value. */
  lemma {:induction false} AbsentKeyKept(p: Platform, lines: seq<string>, k: string)
    requires KeyIndex(k).Some?
    requires forall j :: 0 <= j < |lines| ==> LineKey(lines[j]) != Some(k)
    ensures Field(ParseLines(p, lines), k) == Field(p, k)
  {
    if |lines| > 0 {
      var init := lines[..|lines| - 1];
      var q := ParseLines(p, init);
      assert ParseLines(p, lines) == ParseLine(q, lines[|lines| - 1]);
      FieldAfterLine(q, lines[|lines| - 1], k);
      assert forall j :: 0 <= j < |init| ==> init[j] == lines[j];
      AbsentKeyKept(p, init, k);
    }
  }

  /** Text after a second `=` is dropped from the value. */
  lemma SecondSeparatorDropsRest(key: string, value: string, rest: string)
    requires '=' !in key && '=' !in value
    ensures LineKey(key + "=" + value + "=" + rest) == Some(key)
    ensures LineValue(key + "=" + value + "=" + rest) == Text.Trim(value, '"')
  {
    var tail := value + ['='] + rest;
    assert key + "=" + value + "=" + rest == key + ['='] + tail;
    Text.CutFirst(key, '=', tail);
    Text.CutFirst(value, '=', rest);
  }

  /** A line as a release file writes it: the key, `=`, and the value in
      double quotes. */
  function RenderLine(key: string, value: string): string
  {
    key + "=" + "\"" + value + "\""
  }

  /** A value the simplified parser reads back unchanged: no `=` inside and
      no double quote at either end. */
  predicate PlainValue(v: string)
  {
    '=' !in v && (|v| > 0 ==> v[0] != '"' && v[|v| - 1] != '"')
  }

  /** Trimming the quotes around a plain value gives the value. */
  lemma TrimQuotes(value: string)
    requires PlainValue(value)
    ensures Text.Trim("\"" + value + "\"", '"') == value
  {
    var quoted := "\"" + value + "\"";
    assert quoted[1..] == value + "\"";
    if |value| == 0 {
      assert Text.TrimLeft(quoted, '"') == Text.TrimLeft("\"", '"');
      assert ("\"")[1..] == "";
    } else {
      assert Text.TrimLeft(quoted, '"') == value + "\"";
      assert (value + "\"")[..|value|] == value;
      assert Text.TrimRight(value + "\"", '"') == Text.TrimRight(value, '"');
    }
  }

  /** A known key with a plain value is read back as written. */
  lemma RenderLineParses(key: string, value: string)
    requires key in Keys && PlainValue(value)
    ensures LineKey(RenderLine(key, value)) == Some(key)
    ensures LineValue(RenderLine(key, value)) == value
  {
    var quoted := "\"" + value + "\"";
    KeysHaveNoSeparator(key);
    assert RenderLine(key, value) == key + ['='] + quoted;
    Text.CutFirst(key, '=', quoted);
    assert '=' !in quoted;
    assert Text.Before(quoted, '=') == quoted;
    TrimQuotes(value);
  }

  lemma KeysHaveNoSeparator(key: string)
    requires key in Keys
    ensures '=' !in key
  {
  }

  /** The release file for a platform: one quoted line per key. */
  function Render(p: Platform): seq<string>
  {
    seq(|Keys|, k requires 0 <= k < |Keys| => RenderLine(Keys[k], Field(p, Keys[k]).value))
  }

  /** Every field of the platform is a plain value. */
  predicate PlainPlatform(p: Platform)
  {
    forall k :: k in Keys ==> PlainValue(Field(p, k).value)
  }

  /** In a rendered file, line `i` is the last one with key `Keys[i]`. */
  lemma RenderedLastWithKey(p: Platform, i: nat)
    requires PlainPlatform(p) && i < |Keys|
    ensures LastWithKey(Render(p), Keys[i], i)
  {
    var lines := Render(p);
    RenderLineParses(Keys[i], Field(p, Keys[i]).value);
    forall j | i < j < |lines|
      ensures LineKey(lines[j]) != Some(Keys[i])
    {
      RenderLineParses(Keys[j], Field(p, Keys[j]).value);
      KeysDistinct();
    }
  }

  /** Each field is read back from its rendered line. */
  lemma RenderedField(p: Platform, i: nat)
    requires PlainPlatform(p) && i < |Keys|
    ensures FieldAt(ParseLines(EmptyPlatform, Render(p)), i) == FieldAt(p, i)
  {
    var k := Keys[i];
    KeyIndexOf(i);
    RenderLineParses(k, Field(p, k).value);
    RenderedLastWithKey(p, i);
    LastOccurrenceWins(EmptyPlatform, Render(p), k, i);
  }

  /** Parsing the rendered file of a platform with plain values gives the
      platform back. */
  lemma ParseRender(p: Platform)
    requires PlainPlatform(p)
    ensures NewPlatformAttributes(Some(Render(p))) == p
  {
    var q := ParseLines(EmptyPlatform, Render(p));
    forall i | 0 <= i < |Keys|
      ensures FieldAt(q, i) == FieldAt(p, i)
    {
      RenderedField(p, i);
    }
    FieldsDetermine(q, p);
  }

  // ---------------------------------------------------------------------------
  // Custom attributes

  /** `AddCustom`: records `value` under `key`, replacing any earlier one. */
  function AddCustom(custom: map<string, string>, key: string, value: string): (c: map<string, string>)
    ensures c.Keys == custom.Keys + {key}
  {
    custom[key := value]
  }

  /** `GetCustom`: the value under `key`, or the empty string. */
  function GetCustom(custom: map<string, string>, key: string): (v: string)
    ensures key !in custom ==> v == ""
  {
    if key in custom then custom[key] else ""
  }

  /** A custom attribute reads back as last added, and adding one leaves the
      others as they were. */
  lemma CustomReadBack(custom: map<string, string>, key: string, value: string, other: string)
    requires other != key
    ensures GetCustom(AddCustom(custom, key, value), key) == value
    ensures GetCustom(AddCustom(custom, key, value), other) == GetCustom(custom, other)
  {
  }
}
