/** packages/runtime-utils: the env file printer and parser. */
module EnvFile {
  import opened Wrappers

  // ----- strings -----

  /** What `String.prototype.trim` strips: white space and line terminators. */
  predicate IsSpace(c: char) {
    || '\U{0009}' <= c <= '\U{000D}' || c == ' ' || c == '\U{00A0}' || c == '\U{1680}' || '\U{2000}' <= c <= '\U{200A}'
    || c == '\U{2028}' || c == '\U{2029}' || c == '\U{202F}' || c == '\U{205F}' || c == '\U{3000}' || c == '\U{FEFF}'
  }

  function TrimStart(s: string): (r: string)
    ensures forall c | c in r :: c in s
    ensures r != "" ==> !IsSpace(r[0])
    ensures s != "" && !IsSpace(s[0]) ==> r == s
    ensures |r| <= |s|
  {
    if s != "" && IsSpace(s[0]) then TrimStart(s[1..]) else s
  }

  function TrimEnd(s: string): (r: string)
    ensures r <= s && (forall c | c in r :: c in s)
    ensures r != "" ==> !IsSpace(r[|r| - 1])
    ensures s != "" && !IsSpace(s[|s| - 1]) ==> r == s
  {
    if s != "" && IsSpace(s[|s| - 1]) then TrimEnd(s[..|s| - 1]) else s
  }

  function Trim(s: string): string {
    TrimStart(TrimEnd(s))
  }

  /** `indexOf`, the length standing for "not found". */
  function IndexOf(s: string, c: char): (i: nat)
    ensures i <= |s| && c !in s[..i] && (i < |s| ==> s[i] == c)
  {
    if s == "" || s[0] == c then 0
    else
      var i := IndexOf(s[1..], c) + 1;
      assert s[..i] == [s[0]] + s[1..][..i - 1];
      i
  }

  /** The `\r` that a line break may start with. */
  function Chomp(line: string): string {
    if line != "" && line[|line| - 1] == '\r' then line[..|line| - 1] else line
  }

  /** `text.split(/\r?\n/)` */
  function SplitLines(text: string): (lines: seq<string>)
    ensures lines != []
    decreases |text|
  {
    var i := IndexOf(text, '\n');
    if i == |text| then [text] else [Chomp(text[..i])] + SplitLines(text[i + 1..])
  }

  function StripWrappingQuotes(value: string): (r: string)
    ensures |r| <= |value| && forall c | c in r :: c in value
  {
    if value != "" && value[0] == value[|value| - 1] && (value[0] == '"' || value[0] == '\'') then
      if |value| == 1 then "" else value[1..|value| - 1]
    else value
  }

  // ----- parseEnvText -----

  /** The assignment a line makes, if it makes one. */
  function ParseLine(rawLine: string): Option<(string, string)> {
    var line := Trim(rawLine);
    if line == "" || line[0] == '#' then None
    else
      var separatorIndex := IndexOf(line, '=');
      if separatorIndex == |line| || separatorIndex == 0 then None
      else Some((Trim(line[..separatorIndex]), StripWrappingQuotes(Trim(line[separatorIndex + 1..]))))
  }

  /** `result[key] = value` on an object literal: the name of the prototype slot cannot be assigned a string. */
  function Assigned(m: map<string, string>, key: string, value: string): map<string, string> {
    if key == "__proto__" then m else m[key := value]
  }

  function ParseLines(lines: seq<string>): map<string, string> {
    if lines == [] then map[]
    else
      var m, entry := ParseLines(lines[..|lines| - 1]), ParseLine(lines[|lines| - 1]);
      if entry == None then m else Assigned(m, entry.value.0, entry.value.1)
  }

  function Parse(text: string): map<string, string> {
    ParseLines(SplitLines(text))
  }

  method ParseEnvText(text: string) returns (result: map<string, string>)
    ensures result == Parse(text)
  {
    hide Trim, StripWrappingQuotes, IndexOf, SplitLines, Assigned;
    result := map[];
    var lines := SplitLines(text);
    for i := 0 to |lines|
      invariant result == ParseLines(lines[..i])
    {
      assert lines[..i + 1][..i] == lines[..i];
      var line := Trim(lines[i]);
      if line == "" || line[0] == '#' {
        continue;
      }
      var separatorIndex := IndexOf(line, '=');
      if separatorIndex == |line| || separatorIndex == 0 {
        continue;
      }
      var key := Trim(line[..separatorIndex]);
      var value := StripWrappingQuotes(Trim(line[separatorIndex + 1..]));
      result := Assigned(result, key, value);
    }
    assert lines[..|lines|] == lines;
  }

  // ----- formatEnvFile -----

  type Entries = seq<(string, string)>

  function Join(lines: seq<string>): string {
    if lines == [] then "" else if |lines| == 1 then lines[0] else lines[0] + "\n" + Join(lines[1..])
  }

  function Lines(entries: Entries): (r: seq<string>)
    ensures |r| == |entries| && forall i | 0 <= i < |r| :: r[i] == entries[i].0 + "=" + entries[i].1
  {
    seq(|entries|, i requires 0 <= i < |entries| => entries[i].0 + "=" + entries[i].1)
  }

  /** formatEnvFile, whatever order the entries were sorted into. */
  function Format(entries: Entries): string {
    Join(Lines(entries)) + "\n"
  }

  function ToMap(entries: Entries): map<string, string> {
    if entries == [] then map[]
    else ToMap(entries[..|entries| - 1])[entries[|entries| - 1].0 := entries[|entries| - 1].1]
  }

  ghost predicate DistinctKeys(entries: Entries) {
    forall i, j | 0 <= i < j < |entries| :: entries[i].0 != entries[j].0
  }

  ghost predicate HasKey(entries: Entries, k: string) {
    exists i :: 0 <= i < |entries| && entries[i].0 == k
  }

  /** The entries of m, each once, in some order. */
  ghost predicate Lists(entries: Entries, m: map<string, string>) {
    && DistinctKeys(entries)
    && (forall i | 0 <= i < |entries| :: entries[i].0 in m && m[entries[i].0] == entries[i].1)
    && (forall k | k in m :: HasKey(entries, k))
  }

  // ----- what survives a round trip -----

  predicate GoodKey(k: string) {
    k != "" && Trim(k) == k && '=' !in k && '\n' !in k && k[0] != '#' && k != "__proto__"
  }

  predicate GoodValue(v: string) {
    Trim(v) == v && '\n' !in v && StripWrappingQuotes(v) == v
  }

  // ----- lines -----

  lemma {:induction false} FirstIndex(a: string, c: char, rest: string)
    requires c !in a
    ensures IndexOf(a + [c] + rest, c) == |a|
  {
    if a != "" {
      assert (a + [c] + rest)[1..] == a[1..] + [c] + rest;
      FirstIndex(a[1..], c, rest);
    }
  }

  lemma SplitFirst(a: string, rest: string)
    requires '\n' !in a
    ensures SplitLines(a + "\n" + rest) == [Chomp(a)] + SplitLines(rest)
  {
    var text := a + "\n" + rest;
    FirstIndex(a, '\n', rest);
    assert text == a + ['\n'] + rest;
    assert text[..|a|] == a && text[|a| + 1..] == rest;
  }

  function Chomped(lines: seq<string>): (r: seq<string>)
    ensures |r| == |lines| && forall i | 0 <= i < |r| :: r[i] == Chomp(lines[i])
  {
    seq(|lines|, i requires 0 <= i < |lines| => Chomp(lines[i]))
  }

  lemma ChompedFirst(lines: seq<string>)
    requires lines != []
    ensures Chomped(lines) == [Chomp(lines[0])] + Chomped(lines[1..])
  {
    hide Chomp;
  }

  lemma {:induction false} SplitJoined(lines: seq<string>)
    requires lines != [] && forall l | l in lines :: '\n' !in l
    ensures SplitLines(Join(lines) + "\n") == Chomped(lines) + [""]
  {
    var first, rest := lines[0], lines[1..];
    assert first in lines;
    ChompedFirst(lines);
    hide Chomp, Chomped;
    if |lines| == 1 {
      assert first + "\n" == first + "\n" + "" && Join(lines) == first;
      SplitFirst(first, "");
      assert Chomped(rest) == [] && SplitLines("") == [""];
    } else {
      assert Join(lines) + "\n" == first + "\n" + (Join(rest) + "\n");
      SplitFirst(first, Join(rest) + "\n");
      forall l | l in rest ensures '\n' !in l {
        assert l in lines;
      }
      hide Join, SplitLines;
      SplitJoined(rest);
      assert [Chomp(first)] + (Chomped(rest) + [""]) == Chomped(lines) + [""];
    }
  }

  lemma {:induction false} LinesHaveNoBreak(text: string)
    ensures forall l | l in SplitLines(text) :: '\n' !in l
    decreases |text|
  {
    var i := IndexOf(text, '\n');
    if i == |text| {
      assert text[..i] == text;
    } else {
      LinesHaveNoBreak(text[i + 1..]);
      assert '\n' !in Chomp(text[..i]);
      hide Chomp, IndexOf;
    }
  }

  // ----- trimming -----

  lemma {:induction false} TrimEndAppend(a: string, b: string)
    requires a != "" && !IsSpace(a[|a| - 1])
    ensures TrimEnd(a + b) == a + TrimEnd(b)
  {
    if b == "" {
      assert a + b == a;
    } else if IsSpace(b[|b| - 1]) {
      assert (a + b)[..|a + b| - 1] == a + b[..|b| - 1];
      TrimEndAppend(a, b[..|b| - 1]);
    }
  }

  lemma {:induction false} TrimmedEnds(s: string)
    requires Trim(s) == s && s != ""
    ensures !IsSpace(s[0]) && !IsSpace(s[|s| - 1])
  {
    assert |TrimEnd(s)| == |s|;
  }

  lemma {:induction false} StartKeepsEnd(s: string)
    requires s != "" && !IsSpace(s[|s| - 1])
    ensures TrimStart(s) != "" && TrimStart(s)[|TrimStart(s)| - 1] == s[|s| - 1]
  {
    if IsSpace(s[0]) {
      assert |s| > 1;
      StartKeepsEnd(s[1..]);
    }
  }

  lemma TrimIdempotent(s: string)
    ensures Trim(Trim(s)) == Trim(s) && forall c | c in Trim(s) :: c in s
  {
    var e := TrimEnd(s);
    if e != "" {
      StartKeepsEnd(e);
    }
  }

  lemma TrimChomp(s: string)
    ensures Trim(Chomp(s)) == Trim(s)
  {
  }

  // ----- one line -----

  /** The parser trims a printed line at its end only. */
  lemma PrintedLine(k: string, v: string)
    requires GoodKey(k)
    ensures var line := k + "=" + TrimEnd(v); Trim(k + "=" + v) == line && line[0] == k[0] != '#'
    ensures k != "" && Trim(k) == k && Trim(TrimEnd(v)) == Trim(v)
  {
    var raw := k + "=" + v;
    TrimmedEnds(k);
    assert raw == (k + "=") + v;
    TrimEndAppend(k + "=", v);
    var line := k + "=" + TrimEnd(v);
    assert TrimEnd(raw) == line && line[0] == k[0];
    assert TrimEnd(TrimEnd(v)) == TrimEnd(v);
  }

  /**
   The line printed for a good key and any newline-free value is read as that key and the value, trimmed and unquoted.
   */
  lemma LineParses(k: string, v: string)
    requires GoodKey(k) && '\n' !in v
    ensures ParseLine(Chomp(k + "=" + v)) == Some((k, Clean(v)))
  {
    var raw := k + "=" + v;
    TrimChomp(raw);
    PrintedLine(k, v);
    hide Chomp, TrimEnd, TrimStart;
    var line := k + "=" + TrimEnd(v);
    FirstIndex(k, '=', TrimEnd(v));
    assert line == k + ['='] + TrimEnd(v);
    hide Trim;
    assert line[..|k|] == k && line[|k| + 1..] == TrimEnd(v);
  }

  /** Whatever the text, a parsed key is good, and a parsed value has no line break. */
  lemma LineIsGood(raw: string)
    requires '\n' !in raw && ParseLine(raw).Some?
    ensures var (k, v) := ParseLine(raw).value; (k != "__proto__" ==> GoodKey(k)) && '\n' !in v
  {
    var line := Trim(raw);
    TrimIdempotent(raw);
    var i := IndexOf(line, '=');
    var left := line[..i];
    TrimIdempotent(left);
    assert left[0] == line[0] && !IsSpace(left[0]);
    KeepsFirst(left);
    var right := line[i + 1..];
    TrimIdempotent(right);
    assert forall c | c in left :: c in line;
    assert forall c | c in right :: c in line;
  }

  lemma {:induction false} KeepsFirst(s: string)
    requires s != "" && !IsSpace(s[0])
    ensures Trim(s) != "" && Trim(s)[0] == s[0]
  {
    if IsSpace(s[|s| - 1]) {
      KeepsFirst(s[..|s| - 1]);
    }
  }

  lemma {:induction false} ParsedIsGood(lines: seq<string>)
    requires forall l | l in lines :: '\n' !in l
    ensures forall k | k in ParseLines(lines) :: GoodKey(k) && '\n' !in ParseLines(lines)[k]
  {
    if lines != [] {
      var init, last := lines[..|lines| - 1], lines[|lines| - 1];
      assert last in lines;
      ParsedIsGood(init);
      if ParseLine(last).Some? {
        LineIsGood(last);
      }
      hide ParseLine, GoodKey;
    }
  }

  // ----- whole files -----

  /** What is left of a value. */
  function Clean(v: string): string {
    StripWrappingQuotes(Trim(v))
  }

  function Cleaned(entries: Entries): (r: Entries)
    ensures |r| == |entries| && forall i | 0 <= i < |r| :: r[i] == (entries[i].0, Clean(entries[i].1))
  {
    seq(|entries|, i requires 0 <= i < |entries| => (entries[i].0, Clean(entries[i].1)))
  }

  /** The printed lines, as the parser cuts them. */
  function Printed(entries: Entries): (r: seq<string>)
    ensures |r| == |entries| && forall i | 0 <= i < |r| :: r[i] == Chomp(entries[i].0 + "=" + entries[i].1)
  {
    seq(|entries|, i requires 0 <= i < |entries| => Chomp(entries[i].0 + "=" + entries[i].1))
  }

  lemma {:induction false} PrintedParses(entries: Entries)
    requires forall i | 0 <= i < |entries| :: GoodKey(entries[i].0) && '\n' !in entries[i].1
    ensures ParseLines(Printed(entries)) == ToMap(Cleaned(entries))
  {
    if entries != [] {
      var n := |entries| - 1;
      PrintedParses(entries[..n]);
      assert Printed(entries)[..n] == Printed(entries[..n]);
      assert Cleaned(entries)[..n] == Cleaned(entries[..n]);
      LineParses(entries[n].0, entries[n].1);
      var key := entries[n].0;
      assert key != "__proto__";
      hide ParseLine, GoodKey, Clean, Chomp;
      assert forall m: map<string, string>, v: string :: Assigned(m, key, v) == m[key := v];
      hide Assigned;
    }
  }

  lemma OneMoreEntry(init: Entries, m: map<string, string>, k: string, v: string)
    requires Lists(init, m) && DistinctKeys(init + [(k, v)])
    ensures Lists(init + [(k, v)], m[k := v])
  {
    var entries := init + [(k, v)];
    assert entries[|init|].0 == k;
    forall x | x in m[k := v] ensures HasKey(entries, x) {
      if x != k {
        assert HasKey(init, x);
        var i :| 0 <= i < |init| && init[i].0 == x;
        assert entries[i].0 == x;
      }
    }
  }

  lemma {:induction false} ToMapLists(entries: Entries)
    requires DistinctKeys(entries)
    ensures Lists(entries, ToMap(entries))
  {
    if entries != [] {
      var init, last := entries[..|entries| - 1], entries[|entries| - 1];
      assert entries == init + [last];
      ToMapLists(init);
      OneMoreEntry(init, ToMap(init), last.0, last.1);
      hide Lists, DistinctKeys;
    }
  }

  lemma FormatOfNone()
    ensures Parse(Format([])) == ToMap(Cleaned([]))
  {
    SplitFirst("", "");
    assert "" + "\n" + "" == Format([]);
    assert SplitLines("") == [""] && [Chomp("")] + [""] == ["", ""];
    assert ["", ""][..1] == [""] && [""][..0] == [];
  }

  lemma LinesUnbroken(entries: Entries)
    requires entries != [] && forall i | 0 <= i < |entries| :: GoodKey(entries[i].0) && '\n' !in entries[i].1
    ensures Lines(entries) != [] && forall l | l in Lines(entries) :: '\n' !in l
  {
    forall l | l in Lines(entries) ensures '\n' !in l {
      var i :| 0 <= i < |entries| && l == Lines(entries)[i];
      assert '\n' !in entries[i].0;
    }
  }

  lemma ParseOfFormat(entries: Entries)
    ensures Parse(Format(entries)) == ParseLines(SplitLines(Join(Lines(entries)) + "\n"))
  {
    hide ParseLines, SplitLines, Join, Lines;
  }

  lemma PrintedIsChomped(entries: Entries)
    ensures Chomped(Lines(entries)) == Printed(entries)
  {
    hide Chomp;
  }

  lemma LastLineEmpty(lines: seq<string>)
    ensures ParseLines(lines + [""]) == ParseLines(lines)
  {
    assert (lines + [""])[..|lines|] == lines;
    assert ParseLine("") == None;
  }

  lemma FormatParses(entries: Entries)
    requires forall i | 0 <= i < |entries| :: GoodKey(entries[i].0) && '\n' !in entries[i].1
    ensures Parse(Format(entries)) == ToMap(Cleaned(entries))
  {
    if entries == [] {
      FormatOfNone();
    } else {
      hide *;
      LinesUnbroken(entries);
      ParseOfFormat(entries);
      SplitJoined(Lines(entries));
      PrintedIsChomped(entries);
      LastLineEmpty(Printed(entries));
      PrintedParses(entries);
    }
  }

  /** A value comes back as it was exactly when it was trimmed and not quoted. */
  lemma ValueSurvivesIff(v: string)
    ensures Clean(v) == v <==> Trim(v) == v && StripWrappingQuotes(v) == v
  {
    TrimNoLonger(v);
  }

  lemma TrimNoLonger(v: string)
    ensures |Trim(v)| <= |v| && (|Trim(v)| == |v| ==> Trim(v) == v)
  {
    assert |TrimStart(TrimEnd(v))| <= |TrimEnd(v)|;
    StartNoLonger(TrimEnd(v));
  }

  lemma {:induction false} StartNoLonger(s: string)
    ensures |TrimStart(s)| == |s| ==> TrimStart(s) == s
  {
  }

  /**
   Printing m and parsing it back gives m exactly when all its keys and values are good, in whatever order it is
   printed.
   */
  lemma RoundTripIff(m: map<string, string>, entries: Entries)
    requires Lists(entries, m)
    ensures Parse(Format(entries)) == m <==> forall k | k in m :: GoodKey(k) && GoodValue(m[k])
  {
    if Parse(Format(entries)) == m {
      LinesHaveNoBreak(Format(entries));
      ParsedIsGood(SplitLines(Format(entries)));
    }
    if forall k | k in m :: GoodKey(k) && '\n' !in m[k] {
      FormatParses(entries);
      ToMapLists(Cleaned(entries));
      CleanedIs(m, entries);
    }
  }

  lemma CleanedAt(m: map<string, string>, entries: Entries, k: string)
    requires Lists(entries, m) && k in m
    ensures k in ToMap(Cleaned(entries)) && ToMap(Cleaned(entries))[k] == Clean(m[k])
  {
    var c := Cleaned(entries);
    ToMapLists(c);
    hide Clean, ToMap;
    assert HasKey(entries, k);
    var i :| 0 <= i < |entries| && entries[i].0 == k;
    assert c[i] == (k, Clean(m[k]));
  }

  lemma CleanedKeys(m: map<string, string>, entries: Entries)
    requires Lists(entries, m)
    ensures ToMap(Cleaned(entries)).Keys == m.Keys
  {
    var n := ToMap(Cleaned(entries));
    ToMapLists(Cleaned(entries));
    hide ToMap, Clean;
    forall k | k in n ensures k in m {
      assert HasKey(Cleaned(entries), k);
      var i :| 0 <= i < |entries| && Cleaned(entries)[i].0 == k;
      assert entries[i].0 == k;
    }
    forall k | k in m ensures k in n {
      CleanedAt(m, entries, k);
    }
  }

  lemma CleanedIs(m: map<string, string>, entries: Entries)
    requires Lists(entries, m)
    ensures ToMap(Cleaned(entries)) == m <==> forall k | k in m ::
              Trim(m[k]) == m[k] && StripWrappingQuotes(m[k]) == m[k]
  {
    hide *;
    CleanedKeys(m, entries);
    var n := ToMap(Cleaned(entries));
    forall k | k in m
      ensures k in n && (n[k] == m[k] <==> Trim(m[k]) == m[k] && StripWrappingQuotes(m[k]) == m[k])
    {
      CleanedAt(m, entries, k);
      ValueSurvivesIff(m[k]);
    }
  }

  // ----- updateEnvFile -----

  datatype Change = Undefined | Null | Set(value: string)

  /** The map update: set what is given, and drop what is null when asked to. */
  function Updated(current: map<string, string>, updates: map<string, Change>, removeNull: bool): map<string, string> {
    map k | k in current.Keys + updates.Keys
            && (if k in updates && updates[k].Set? && k != "__proto__" then true
                else k in current && !(k in updates && updates[k].Null? && removeNull)) ::
      if k in updates && updates[k].Set? && k != "__proto__" then updates[k].value else current[k]
  }

  function WithChange(next: map<string, string>, key: string, change: Change, removeNull: bool): map<string, string> {
    match change
    case Undefined => next
    case Null => if removeNull then next - {key} else next
    case Set(value) => Assigned(next, key, value)
  }

  lemma UpdatedOne(current: map<string, string>, updates: map<string, Change>, key: string, change: Change,
                   removeNull: bool)
    requires key !in updates && "__proto__" !in current
    ensures WithChange(Updated(current, updates, removeNull), key, change, removeNull) ==
            Updated(current, updates[key := change], removeNull)
  {
  }

  class File {
    var text: Option<string>      // None when there is no such file

    constructor (text: Option<string>)
      ensures this.text == text
    {
      this.text := text;
    }

    function Contents(): map<string, string>
      reads this
    {
      if text.Some? then Parse(text.value) else map[]
    }

    method ReadEnvFile() returns (entries: map<string, string>)
      ensures entries == Contents()
    {
      if text == None {
        return map[];
      }
      entries := ParseEnvText(text.value);
    }

    /** Reading back gives the updated map exactly when everything in it survives being printed. */
    method UpdateEnvFile(updates: map<string, Change>, removeNull: bool) returns (next: map<string, string>)
      modifies this
      ensures next == Updated(old(Contents()), updates, removeNull)
      ensures Contents() == next <==> forall k | k in next :: GoodKey(k) && GoodValue(next[k])
    {
      var current := ReadEnvFile();
      NeverProto(text);
      next := current;
      var left := updates.Keys;
      ghost var done: map<string, Change> := map[];
      while left != {}
        invariant left <= updates.Keys && done.Keys == updates.Keys - left
        invariant forall k | k in done :: done[k] == updates[k]
        invariant next == Updated(current, done, removeNull)
      {
        var key :| key in left;
        left := left - {key};
        UpdatedOne(current, done, key, updates[key], removeNull);
        hide Updated;
        done := done[key := updates[key]];
        match updates[key] {
          case Undefined =>
          case Null =>
            if removeNull {
              next := next - {key};
            }
          case Set(value) =>
            next := Assigned(next, key, value);
        }
      }
      assert done == updates;
      hide Updated;
      var entries := EntriesOf(next);
      text := Some(Format(entries));
      RoundTripIff(next, entries);
    }
  }

  lemma NeverProto(text: Option<string>)
    ensures text.Some? ==> "__proto__" !in Parse(text.value)
  {
    if text.Some? {
      LinesHaveNoBreak(text.value);
      ParsedIsGood(SplitLines(text.value));
    }
  }

  /** `Object.entries(next)`, sorted one way or another. */
  method EntriesOf(m: map<string, string>) returns (entries: Entries)
    ensures Lists(entries, m)
  {
    entries := [];
    var left := m.Keys;
    while left != {}
      invariant left <= m.Keys && DistinctKeys(entries)
      invariant forall i | 0 <= i < |entries| ::
                  entries[i].0 in m && entries[i].0 !in left && m[entries[i].0] == entries[i].1
      invariant forall k | k in m && k !in left :: HasKey(entries, k)
    {
      var k :| k in left;
      left := left - {k};
      ghost var before := entries;
      entries := entries + [(k, m[k])];
      assert entries[|before|].0 == k;
      forall x | HasKey(before, x) ensures HasKey(entries, x) {
        var i :| 0 <= i < |before| && before[i].0 == x;
        assert entries[i].0 == x;
      }
    }
  }

  lemma QuotedIsCleaned(v: string, q: char)
    requires q == '"' || q == '\''
    ensures Clean([q] + v + [q]) == v && ('\n' !in v ==> '\n' !in [q] + v + [q])
  {
    var quoted := [q] + v + [q];
    assert Trim(quoted) == quoted && quoted[1..|quoted| - 1] == v;
  }

  lemma OneEntry(k: string, v: string)
    ensures ToMap([(k, v)]) == map[k := v] && Lists([(k, v)], map[k := v])
  {
    assert [(k, v)][..0] == [];
    assert [(k, v)][0].0 == k;
  }

  /**
   A value in quotes, double or single, is read without them; printed again, without quotes, it comes back the same
   exactly when it is good, so quoted white space at its edges is lost by the next update.
   */
  lemma QuotedValueStableIff(k: string, v: string, q: char)
    requires GoodKey(k) && '\n' !in v && (q == '"' || q == '\'')
    ensures Parse(Format([(k, [q] + v + [q])])) == map[k := v]
    ensures Parse(Format([(k, v)])) == map[k := v] <==> GoodValue(v)
  {
    var quoted := [q] + v + [q];
    QuotedIsCleaned(v, q);
    FormatParses([(k, quoted)]);
    assert Cleaned([(k, quoted)]) == [(k, v)];
    OneEntry(k, v);
    hide GoodKey, Parse, Format, ToMap, Cleaned, Clean;
    RoundTripIff(map[k := v], [(k, v)]);
  }

  // ----- lines that were written by hand -----

  ghost predicate Blank(s: string) {
    forall c | c in s :: IsSpace(c)
  }

  lemma {:induction false} TrimStartBlank(a: string, s: string)
    requires Blank(a)
    ensures TrimStart(a + s) == TrimStart(s)
  {
    if a == "" {
      assert a + s == s;
    } else {
      assert (a + s)[1..] == a[1..] + s;
      TrimStartBlank(a[1..], s);
    }
  }

  lemma {:induction false} TrimEndBlank(s: string, b: string)
    requires Blank(b)
    ensures TrimEnd(s + b) == TrimEnd(s)
  {
    if b == "" {
      assert s + b == s;
    } else {
      assert (s + b)[..|s + b| - 1] == s + b[..|b| - 1];
      TrimEndBlank(s, b[..|b| - 1]);
    }
  }

  /** Blanks around a trimmed text are trimmed away. */
  lemma TrimBlanks(a: string, s: string, b: string)
    requires Blank(a) && Blank(b) && Trim(s) == s
    ensures Trim(a + s + b) == s
  {
    TrimEndBlank(a + s, b);
    if s == "" {
      assert a + s == "" + a;
      TrimEndBlank("", a);
    } else {
      TrimmedEnds(s);
      TrimStartBlank(a, s);
    }
  }

  lemma ReadsAt(raw: string, left: string, right: string)
    requires Trim(raw) == left + "=" + right && left != "" && left[0] != '#' && '=' !in left
    ensures ParseLine(raw) == Some((Trim(left), StripWrappingQuotes(Trim(right))))
  {
    hide Trim, StripWrappingQuotes;
    FirstIndex(left, '=', right);
    var line := left + ['='] + right;
    assert line[0] == left[0] && line[..|left|] == left && line[|left| + 1..] == right;
  }

  lemma TrimAfter(k: string, b: string)
    requires Blank(b) && k != "" && Trim(k) == k && '=' !in k
    ensures Trim(k + b) == k && '=' !in k + b && !IsSpace((k + b)[0])
  {
    TrimBlanks("", k, b);
    assert "" + k + b == k + b;
    TrimmedEnds(k);
    BlankHasNoSign(b);
  }

  lemma TrimBefore(c: string, v: string)
    requires Blank(c) && Trim(v) == v
    ensures Trim(c + v) == v
  {
    TrimBlanks(c, v, "");
    assert c + v + "" == c + v;
  }

  /** Blanks around key, separator and value do not matter, and the value loses one pair of quotes. */
  lemma AssignmentReads(a: string, k: string, b: string, c: string, v: string, d: string)
    requires Blank(a) && Blank(b) && Blank(c) && Blank(d)
    requires k != "" && Trim(k) == k && '=' !in k && k[0] != '#' && Trim(v) == v
    ensures ParseLine(a + k + b + "=" + c + v + d) == Some((k, StripWrappingQuotes(v)))
  {
    hide *;
    var right := if v == "" then "" else c + v;
    TrimAfter(k, b);
    WholeLine(a, k + b, c, v, d, right);
    assert a + k + b + "=" + c + v + d == a + (k + b) + "=" + c + v + d;
    TrimBefore(c, v);
    ReadsAt(a + k + b + "=" + c + v + d, k + b, right);
  }

  lemma BlankHasNoSign(b: string)
    requires Blank(b)
    ensures '=' !in b
  {
    assert !IsSpace('=');
  }

  lemma WholeLine(a: string, left: string, c: string, v: string, d: string, right: string)
    requires Blank(a) && Blank(c) && Blank(d) && Trim(v) == v && left != "" && !IsSpace(left[0])
    requires right == if v == "" then "" else c + v
    ensures Trim(a + left + "=" + c + v + d) == left + "=" + right
  {
    var line, rest := left + "=" + right, if v == "" then c + d else d;
    assert a + left + "=" + c + v + d == a + line + rest;
    assert Blank(rest) && line[0] == left[0];
    if v != "" {
      TrimmedEnds(v);
      assert line[|line| - 1] == v[|v| - 1];
    } else {
      assert line[|line| - 1] == '=' && !IsSpace('=');
    }
    TrimBlanks(a, line, rest);
  }

  /** A comment, and a line without a separator or without a key before it, assigns nothing. */
  lemma NothingReads(a: string, rest: string)
    requires Blank(a)
    ensures ParseLine(a + "#" + rest) == None && ParseLine(a + "=" + rest) == None
    ensures '=' !in rest ==> ParseLine(rest) == None
  {
    FirstStays(a, '#', rest);
    FirstStays(a, '=', rest);
    if '=' !in rest {
      TrimIdempotent(rest);
    }
    hide Trim, StripWrappingQuotes;
  }

  lemma FirstStays(a: string, c: char, rest: string)
    requires Blank(a) && !IsSpace(c)
    ensures var line := Trim(a + [c] + rest); line != "" && line[0] == c
  {
    TrimEndAppend(a + [c], rest);
    var e := [c] + TrimEnd(rest);
    assert TrimEnd(a + [c] + rest) == a + e;
    TrimStartBlank(a, e);
  }
}
