// The `DevToPublisherTool` of tools/devto_publisher_tool.py: the front-matter scans that
// pull a title, tags and a cover image out of a markdown post, the front-matter removal,
// and the publishing request with its reply handling.

module DevTo {
  import opened Wrappers
  import opened Text

  // ---------------------------------------------------------------------------
  // Line scans
  // ---------------------------------------------------------------------------

  /** `content.split('\n')` */
  function Lines(content: string): seq<string> {
    SplitOn(content, '\n')
  }

  /** The line tests of the extractors' loops. */
  datatype LineTest =
    | KeyTest(key: string)   // `line.strip().startswith(key)`
    | HeadingTest            // `line.startswith('# ')`
    | TagTest                // a `tags:` line whose value is a bracketed list

  predicate Passes(t: LineTest, line: string) {
    match t
    case KeyTest(key) => StartsWith(Strip(line), key)
    case HeadingTest => StartsWith(line, HeadingMark)
    case TagTest => StartsWith(Strip(line), TagsKey) && Bracketed(TagValue(line))
  }

  /** Which lines pass `t`. */
  function Flags(lines: seq<string>, t: LineTest): (fs: seq<bool>)
    ensures |fs| == |lines| && forall i :: 0 <= i < |lines| ==> fs[i] == Passes(t, lines[i])
  {
    seq(|lines|, i requires 0 <= i < |lines| => Passes(t, lines[i]))
  }

  /** The first true flag from `from` on. */
  function FirstTrue(fs: seq<bool>, from: nat): (r: Option<nat>)
    ensures r.Some? ==> from <= r.value < |fs| && fs[r.value]
    ensures r.Some? ==> forall j :: from <= j < r.value ==> !fs[j]
    ensures r.None? ==> forall j :: from <= j < |fs| ==> !fs[j]
    decreases |fs| - from
  {
    if from >= |fs| then None
    else if fs[from] then Some(from)
    else FirstTrue(fs, from + 1)
  }

  /** The first line that passes `t`: the `for line in ...: if ...: return` loops of the
      extractors. */
  function FirstWhere(lines: seq<string>, t: LineTest): (r: Option<nat>)
    ensures r.Some? ==> r.value < |lines| && Passes(t, lines[r.value])
    ensures r.Some? ==> forall j :: 0 <= j < r.value ==> !Flags(lines, t)[j]
    ensures r.None? ==> forall j :: 0 <= j < |lines| ==> !Flags(lines, t)[j]
  {
    FirstTrue(Flags(lines, t), 0)
  }

  /** `line.split(':', 1)[1]`: the text after the first colon. */
  function AfterColon(line: string): (r: string)
    ensures |r| <= |line| && r == line[|line| - |r|..]
  {
    if line == [] then []
    else if line[0] == ':' then line[1..]
    else AfterColon(line[1..])
  }

  /** `line.split(':', 1)[1].strip().strip('"\'')` */
  function Value(line: string): string {
    StripQuotes(Strip(AfterColon(line)))
  }

  /** A line whose stripped form starts with `key` lies inside the content, so the
      `key in content` test in front of each scan never hides a matching line. */
  lemma KeyLineInContent(content: string, key: string, i: nat)
    requires i < |Lines(content)| && Passes(KeyTest(key), Lines(content)[i])
    ensures Contains(content, key)
  {
    var line := Lines(content)[i];
    SplitOnPartsOccur(content, '\n', i);
    StripContained(line);
    assert Contains(Strip(line), key);
    ContainsTransitive(line, Strip(line), key);
    ContainsTransitive(content, line, key);
  }

  /** Hence the scan behind the `key in content` test finds what the bare scan finds. */
  lemma KeyGuardRedundant(content: string, key: string)
    ensures (if Contains(content, key) then FirstWhere(Lines(content), KeyTest(key)) else None)
         == FirstWhere(Lines(content), KeyTest(key))
  {
    var r := FirstWhere(Lines(content), KeyTest(key));
    if r.Some? {
      KeyLineInContent(content, key, r.value);
    }
  }

  /** A field key such as `title:`: one colon, at its end. */
  predicate FieldKey(key: string) {
    |key| >= 2 && key[|key| - 1] == ':' && ':' !in key[..|key| - 1] && '\n' !in key && !IsSpace(key[0])
  }

  /** A value that survives `strip()` unchanged and fits on one line. */
  predicate LineValue(v: string) {
    v != [] && Trimmed(v) && '\n' !in v
  }

  /** A value that also survives `strip('"\'')`. */
  predicate PlainValue(v: string) {
    LineValue(v) && v[0] !in {'"', '\''} && v[|v| - 1] !in {'"', '\''}
  }

  /** How a field is written in front matter: `key value`. */
  function FieldLine(key: string, v: string): string {
    key + " " + v
  }

  lemma FirstLine(line: string, rest: string)
    requires '\n' !in line
    ensures Lines(line + "\n" + rest)[0] == line
  {
    SplitOnAtSep(line, '\n', rest);
  }

  lemma {:induction false} AfterColonOfKey(key: string, tail: string)
    requires |key| >= 1 && key[|key| - 1] == ':' && ':' !in key[..|key| - 1]
    ensures AfterColon(key + tail) == tail
  {
    if key[0] == ':' {
      assert |key| == 1;
      assert (key + tail)[1..] == tail;
    } else {
      assert key[1..][..|key| - 2] == key[..|key| - 1][1..];
      AfterColonOfKey(key[1..], tail);
      assert (key + tail)[1..] == key[1..] + tail;
    }
  }

  lemma StripLeadingSpace(v: string)
    requires v != [] && Trimmed(v)
    ensures Strip([' '] + v) == v
  {
    assert ([' '] + v)[1..] == v;
  }

  /** A written field line is found by its key and gives back its value. */
  lemma FieldLineRead(key: string, v: string)
    requires FieldKey(key) && LineValue(v)
    ensures '\n' !in FieldLine(key, v)
    ensures Passes(KeyTest(key), FieldLine(key, v))
    ensures Strip(AfterColon(FieldLine(key, v))) == v
  {
    var line := FieldLine(key, v);
    assert forall i :: 0 <= i < |line| ==> line[i] == if i < |key| then key[i] else if i == |key| then ' ' else v[i - |key| - 1];
    assert '\n' !in line;
    assert Trimmed(line);
    StripTrimmed(line);
    assert StartsWith(line, key);
    assert line == key + ([' '] + v);
    AfterColonOfKey(key, [' '] + v);
    StripLeadingSpace(v);
  }

  lemma StripQuotesPlain(v: string)
    requires PlainValue(v)
    ensures StripQuotes(v) == v
  {
  }

  lemma ValueOfField(key: string, v: string)
    requires FieldKey(key) && PlainValue(v)
    ensures Value(FieldLine(key, v)) == v
  {
    FieldLineRead(key, v);
    StripQuotesPlain(v);
  }

  /** Lines written in front of `s`, each followed by a line break. */
  function Preceded(pre: seq<string>, s: string): string {
    if pre == [] then s else pre[0] + "\n" + Preceded(pre[1..], s)
  }

  predicate OneLineEach(pre: seq<string>) {
    forall i :: 0 <= i < |pre| ==> '\n' !in pre[i]
  }

  /** Splitting a preceded text gives the lines in front, then the lines of the text. */
  lemma {:induction false} LinesPreceded(pre: seq<string>, s: string)
    requires OneLineEach(pre)
    ensures Lines(Preceded(pre, s)) == pre + Lines(s)
  {
    if pre != [] {
      assert OneLineEach(pre[1..]) by {
        forall i | 0 <= i < |pre| - 1 ensures '\n' !in pre[1..][i] {
          assert pre[1..][i] == pre[i + 1];
        }
      }
      LinesPreceded(pre[1..], s);
      SplitOnAtSep(pre[0], '\n', Preceded(pre[1..], s));
      HeadTail(pre);
      Assoc([pre[0]], pre[1..], Lines(s));
    }
  }

  /** The scan passes over lines that fail the test and stops at the first that passes. */
  lemma FirstWhereAfter(pre: seq<string>, lines: seq<string>, t: LineTest)
    requires forall i :: 0 <= i < |pre| ==> !Passes(t, pre[i])
    requires |lines| > 0 && Passes(t, lines[0])
    ensures FirstWhere(pre + lines, t) == Some(|pre|)
  {
    var all := pre + lines;
    var fs := Flags(all, t);
    assert fs[|pre|];
    forall j | 0 <= j < |pre| ensures !fs[j] {
      assert all[j] == pre[j];
    }
  }

  /** A line written after lines that fail a test, and passing it, is the line the scan
      finds. */
  lemma LineAfter(pre: seq<string>, line: string, rest: string, t: LineTest)
    requires '\n' !in line && Passes(t, line) && OneLineEach(pre)
    requires forall i :: 0 <= i < |pre| ==> !Passes(t, pre[i])
    ensures var lines := Lines(Preceded(pre, line + "\n" + rest));
      && FirstWhere(lines, t) == Some(|pre|)
      && lines[|pre|] == line
  {
    var tail := line + "\n" + rest;
    LinesPreceded(pre, tail);
    FirstLine(line, rest);
    FirstWhereAfter(pre, Lines(tail), t);
  }

  // ---------------------------------------------------------------------------
  // Title
  // ---------------------------------------------------------------------------

  const TitleKey: string := "title:"
  const HeadingMark: string := "# "
  const UntitledPost: string := "Untitled Post"

  /** `_extract_title`: the `title:` field, else the first level-one heading, else a
      default. The `'title:' in content` guard never hides a field line. */
  function ExtractTitle(content: string): (title: string)
    ensures var field := FirstWhere(Lines(content), KeyTest(TitleKey));
      field.Some? ==> title == Value(Lines(content)[field.value])
  {
    var lines := Lines(content);
    KeyGuardRedundant(content, TitleKey);
    var field := if Contains(content, TitleKey) then FirstWhere(lines, KeyTest(TitleKey)) else None;
    if field.Some? then Value(lines[field.value])
    else match FirstWhere(lines, HeadingTest)
      case Some(i) => Strip(lines[i][|HeadingMark|..])
      case None => UntitledPost
  }

  /** A `title:` field written after lines that are not title fields is the title. */
  lemma TitleFromField(pre: seq<string>, v: string, rest: string)
    requires PlainValue(v) && OneLineEach(pre)
    requires forall i :: 0 <= i < |pre| ==> !Passes(KeyTest(TitleKey), pre[i])
    ensures ExtractTitle(Preceded(pre, FieldLine(TitleKey, v) + "\n" + rest)) == v
  {
    assert FieldKey(TitleKey);
    FieldLineRead(TitleKey, v);
    LineAfter(pre, FieldLine(TitleKey, v), rest, KeyTest(TitleKey));
    ValueOfField(TitleKey, v);
  }

  /** In a front-matter post the `title:` field following the opening fence is the title. */
  lemma TitleOfFrontMatter(v: string, rest: string)
    requires PlainValue(v)
    ensures ExtractTitle(Fence + "\n" + FieldLine(TitleKey, v) + "\n" + rest) == v
  {
    var body := FieldLine(TitleKey, v) + "\n" + rest;
    FenceIsNoTitle();
    TitleFromField([Fence], v, rest);
    PrecededOne(Fence, body);
    Assoc(FieldLine(TitleKey, v), "\n", rest);
    Assoc(Fence + "\n", FieldLine(TitleKey, v), "\n");
    Assoc(Fence + "\n", FieldLine(TitleKey, v) + "\n", rest);
  }

  lemma FenceIsNoTitle()
    ensures OneLineEach([Fence]) && !Passes(KeyTest(TitleKey), Fence)
  {
    assert NoSpace(Fence) by {
      forall i | 0 <= i < |Fence| ensures !IsSpace(Fence[i]) {
        assert Fence[i] == '-';
      }
    }
    StripNoSpace(Fence);
    assert |Fence| < |TitleKey|;
  }

  lemma PrecededOne(line: string, s: string)
    ensures Preceded([line], s) == line + "\n" + s
  {
    assert [line][1..] == [];
  }

  /** When no line is a `title:` field, the first `# ` heading gives the title. */
  lemma TitleFromHeading(content: string, i: nat)
    requires var lines := Lines(content);
      && (forall j :: 0 <= j < |lines| ==> !Passes(KeyTest(TitleKey), lines[j]))
      && i < |lines| && Passes(HeadingTest, lines[i])
      && (forall j :: 0 <= j < i ==> !Passes(HeadingTest, lines[j]))
    ensures ExtractTitle(content) == Strip(Lines(content)[i][|HeadingMark|..])
  {
    var lines := Lines(content);
    var h := FirstWhere(lines, HeadingTest);
    assert h.Some? && h.value == i by {
      assert Flags(lines, HeadingTest)[i];
    }
    var f := FirstWhere(lines, KeyTest(TitleKey));
    assert f.None?;
  }

  /** When no line is a `title:` field or a `# ` heading, the post is untitled. */
  lemma TitleDefault(content: string)
    requires var lines := Lines(content);
      forall j :: 0 <= j < |lines| ==> !Passes(KeyTest(TitleKey), lines[j]) && !Passes(HeadingTest, lines[j])
    ensures ExtractTitle(content) == UntitledPost
  {
    var lines := Lines(content);
    assert FirstWhere(lines, KeyTest(TitleKey)).None?;
    assert FirstWhere(lines, HeadingTest).None?;
  }

  // ---------------------------------------------------------------------------
  // Tags
  // ---------------------------------------------------------------------------

  const TagsKey: string := "tags:"
  const MaxTags: nat := 5

  /** `line.split(':', 1)[1].strip()` on a `tags:` line. */
  function TagValue(line: string): string {
    Strip(AfterColon(line))
  }

  predicate Bracketed(v: string) {
    StartsWith(v, "[") && EndsWith(v, "]")
  }

  /** `tags_str[1:-1]`: the value without its first and last characters; Python's slice
      of a string shorter than two characters is empty. */
  function Inner(v: string): string {
    if |v| < 2 then [] else v[1..|v| - 1]
  }

  predicate IsAlnum(c: char) {
    'a' <= c <= 'z' || 'A' <= c <= 'Z' || IsDigit(c)
  }

  /** `re.sub(r'[^a-zA-Z0-9]', '', tag)` */
  function Alnum(s: string): (r: string)
    ensures forall i :: 0 <= i < |r| ==> IsAlnum(r[i])
    ensures |r| <= |s|
  {
    if s == [] then [] else (if IsAlnum(s[0]) then [s[0]] else []) + Alnum(s[1..])
  }

  /** The characters a cleaned tag is made of. */
  predicate IsTag(t: string) {
    forall i :: 0 <= i < |t| ==> 'a' <= t[i] <= 'z' || IsDigit(t[i])
  }

  predicate AllTags(ts: seq<string>) {
    forall i :: 0 <= i < |ts| ==> IsTag(ts[i])
  }

  lemma AllTagsCons(t: string, ts: seq<string>)
    requires IsTag(t) && AllTags(ts)
    ensures AllTags([t] + ts)
  {
    var r := [t] + ts;
    forall i | 0 <= i < |r| ensures IsTag(r[i]) {
      if i > 0 { assert r[i] == ts[i - 1]; }
    }
  }

  lemma AllTagsPrefix(a: seq<string>, ts: seq<string>)
    requires AllTags(ts) && IsPrefixOf(a, ts)
    ensures AllTags(a)
  {
    forall i | 0 <= i < |a| ensures IsTag(a[i]) {
      assert a[i] == ts[i];
    }
  }

  /** `[tag.strip().strip('"\'') for tag in tags_str.split(',')]` */
  function RawTags(parts: seq<string>): (r: seq<string>)
    ensures |r| == |parts|
  {
    if parts == [] then [] else [StripQuotes(Strip(parts[0]))] + RawTags(parts[1..])
  }

  /** Every entry is blank: `strip()` leaves nothing. */
  predicate AllBlank(raw: seq<string>) {
    forall i :: 0 <= i < |raw| ==> Strip(raw[i]) == []
  }

  /** No entry is blank. */
  predicate NoneBlank(raw: seq<string>) {
    forall i :: 0 <= i < |raw| ==> Strip(raw[i]) != []
  }

  lemma AllBlankStep(raw: seq<string>)
    requires raw != []
    ensures AllBlank(raw) <==> Strip(raw[0]) == [] && AllBlank(raw[1..])
  {
    var tail := raw[1..];
    if AllBlank(raw) {
      forall i | 0 <= i < |tail| ensures Strip(tail[i]) == [] {
        assert tail[i] == raw[i + 1];
      }
    }
    if Strip(raw[0]) == [] && AllBlank(tail) {
      forall i | 1 <= i < |raw| ensures Strip(raw[i]) == [] {
        assert raw[i] == tail[i - 1];
      }
    }
  }

  lemma NoneBlankStep(raw: seq<string>)
    requires raw != []
    ensures NoneBlank(raw) <==> Strip(raw[0]) != [] && NoneBlank(raw[1..])
  {
    var tail := raw[1..];
    if NoneBlank(raw) {
      forall i | 0 <= i < |tail| ensures Strip(tail[i]) != [] {
        assert tail[i] == raw[i + 1];
      }
    }
    if Strip(raw[0]) != [] && NoneBlank(tail) {
      forall i | 1 <= i < |raw| ensures Strip(raw[i]) != [] {
        assert raw[i] == tail[i - 1];
      }
    }
  }

  /** `re.sub(r'[^a-zA-Z0-9]', '', tag).lower()` */
  function CleanTag(s: string): (t: string)
    ensures IsTag(t)
  {
    var t := Lower(Alnum(s));
    assert IsTag(t);
    t
  }

  /** The comprehension cleaning each tag that is not blank. */
  function CleanTags(raw: seq<string>): (r: seq<string>)
    ensures |r| <= |raw|
    ensures AllTags(r)
    ensures r == [] <==> AllBlank(raw)
    ensures |r| == |raw| <==> NoneBlank(raw)
  {
    if raw == [] then []
    else
      var rest := CleanTags(raw[1..]);
      AllBlankStep(raw);
      NoneBlankStep(raw);
      if Strip(raw[0]) == [] then rest
      else
        var t := CleanTag(raw[0]);
        AllTagsCons(t, rest);
        [t] + rest
  }

  /** The tags of a bracketed `tags:` line: at most five, each made of lower-case letters
      and digits only. */
  function TagsOfLine(line: string): (tags: seq<string>)
    ensures |tags| <= MaxTags
    ensures AllTags(tags)
  {
    var cleaned := CleanTags(RawTags(SplitOn(Inner(TagValue(line)), ',')));
    var r := Take(cleaned, MaxTags);
    AllTagsPrefix(r, cleaned);
    r
  }

  /** A line passing the tags test holds `tags:`, so the content does too: the
      `'tags:' in content` guard never changes the outcome. */
  lemma TagGuardRedundant(content: string)
    ensures var f := FirstWhere(Lines(content), TagTest);
      f.Some? ==> Contains(content, TagsKey)
  {
    var f := FirstWhere(Lines(content), TagTest);
    if f.Some? {
      assert Passes(KeyTest(TagsKey), Lines(content)[f.value]);
      KeyLineInContent(content, TagsKey, f.value);
    }
  }

  /** `_extract_tags` */
  function ExtractTags(content: string): (tags: seq<string>)
    ensures |tags| <= MaxTags
    ensures AllTags(tags)
    ensures var f := FirstWhere(Lines(content), TagTest);
      tags == if f.Some? then TagsOfLine(Lines(content)[f.value]) else []
  {
    var lines := Lines(content);
    TagGuardRedundant(content);
    if !Contains(content, TagsKey) then []
    else match FirstWhere(lines, TagTest)
      case Some(i) => TagsOfLine(lines[i])
      case None => []
  }

  lemma {:induction false} SplitOnJoin(parts: seq<string>, sep: char)
    requires |parts| >= 1 && forall i :: 0 <= i < |parts| ==> sep !in parts[i]
    ensures SplitOn(Join(parts, [sep]), sep) == parts
  {
    if |parts| == 1 {
      SplitOnNoSep(parts[0], sep);
    } else {
      SplitOnJoin(parts[1..], sep);
      SplitOnAtSep(parts[0], sep, Join(parts[1..], [sep]));
      assert Join(parts, [sep]) == parts[0] + [sep] + Join(parts[1..], [sep]);
    }
  }

  /** A clean tag passes through the cleaning unchanged. */
  lemma CleanTagOfTag(t: string)
    requires t != [] && IsTag(t)
    ensures StripQuotes(Strip(t)) == t && Strip(t) != [] && CleanTag(t) == t
  {
    assert NoSpace(t) by {
      forall i | 0 <= i < |t| ensures !IsSpace(t[i]) {
        assert IsTag(t);
      }
    }
    StripNoSpace(t);
    assert StripQuotes(t) == t;
    AlnumOfTag(t);
    LowerOfTag(t);
  }

  /** Tags as a list is written with them: clean and none empty. */
  predicate CleanList(ts: seq<string>) {
    forall i :: 0 <= i < |ts| ==> ts[i] != [] && IsTag(ts[i])
  }

  lemma CleanListTail(ts: seq<string>)
    requires CleanList(ts) && ts != []
    ensures CleanList(ts[1..])
  {
    forall i | 0 <= i < |ts| - 1 ensures ts[1..][i] != [] && IsTag(ts[1..][i]) {
      assert ts[1..][i] == ts[i + 1];
    }
  }

  lemma CleanListTags(ts: seq<string>)
    requires CleanList(ts)
    ensures AllTags(ts)
  {
  }

  lemma {:induction false} CleanTagsOfTags(ts: seq<string>)
    requires CleanList(ts)
    ensures CleanTags(RawTags(ts)) == ts
  {
    if ts != [] {
      CleanTagOfTag(ts[0]);
      CleanListTail(ts);
      CleanTagsOfTags(ts[1..]);
      var raw := RawTags(ts);
      assert raw[0] == ts[0] && raw[1..] == RawTags(ts[1..]);
      HeadTail(ts);
    }
  }

  lemma {:induction false} AlnumOfTag(t: string)
    requires IsTag(t)
    ensures Alnum(t) == t
  {
    if t != [] {
      assert IsTag(t[1..]);
      AlnumOfTag(t[1..]);
    }
  }

  lemma LowerOfTag(t: string)
    requires IsTag(t)
    ensures Lower(t) == t
  {
    assert forall i :: 0 <= i < |t| ==> LowerChar(t[i]) == t[i];
  }

  /** How a tag list is written in front matter: `[a,b,c]`. */
  function TagList(ts: seq<string>): string {
    "[" + Join(ts, ",") + "]"
  }

  lemma {:induction false} JoinNoChar(parts: seq<string>, sep: string, c: char)
    requires c !in sep && forall i :: 0 <= i < |parts| ==> c !in parts[i]
    ensures c !in Join(parts, sep)
  {
    if |parts| > 1 {
      JoinNoChar(parts[1..], sep, c);
    }
  }

  lemma TagChars(ts: seq<string>, c: char)
    requires AllTags(ts)
    requires !('a' <= c <= 'z' || IsDigit(c))
    ensures forall i :: 0 <= i < |ts| ==> c !in ts[i]
  {
    forall i | 0 <= i < |ts| ensures c !in ts[i] {
      assert IsTag(ts[i]);
    }
  }

  lemma TagListShape(ts: seq<string>)
    requires AllTags(ts)
    ensures LineValue(TagList(ts)) && Bracketed(TagList(ts))
    ensures Inner(TagList(ts)) == Join(ts, ",")
  {
    var list := TagList(ts);
    TagChars(ts, '\n');
    JoinNoChar(ts, ",", '\n');
    assert list == ['['] + Join(ts, ",") + [']'];
    assert list[0] == '[' && list[|list| - 1] == ']';
    assert '\n' !in list;
    assert list[1..|list| - 1] == Join(ts, ",");
  }

  /** A bracketed `tags:` field written after lines that are not is the one read. */
  lemma TagsLineFirst(pre: seq<string>, v: string, rest: string)
    requires LineValue(v) && Bracketed(v) && OneLineEach(pre)
    requires forall i :: 0 <= i < |pre| ==> !Passes(TagTest, pre[i])
    ensures ExtractTags(Preceded(pre, FieldLine(TagsKey, v) + "\n" + rest)) == TagsOfLine(FieldLine(TagsKey, v))
  {
    var content := Preceded(pre, FieldLine(TagsKey, v) + "\n" + rest);
    TagLineFound(pre, v, rest);
    assert ExtractTags(content) == TagsOfLine(Lines(content)[|pre|]);
  }

  lemma TagLineFound(pre: seq<string>, v: string, rest: string)
    requires LineValue(v) && Bracketed(v) && OneLineEach(pre)
    requires forall i :: 0 <= i < |pre| ==> !Passes(TagTest, pre[i])
    ensures var content := Preceded(pre, FieldLine(TagsKey, v) + "\n" + rest);
      && Contains(content, TagsKey)
      && FirstWhere(Lines(content), TagTest) == Some(|pre|)
      && Lines(content)[|pre|] == FieldLine(TagsKey, v)
  {
    var line := FieldLine(TagsKey, v);
    var content := Preceded(pre, line + "\n" + rest);
    TagLinePasses(v);
    LineAfter(pre, line, rest, TagTest);
    KeyLineInContent(content, TagsKey, |pre|);
  }

  lemma TagLinePasses(v: string)
    requires LineValue(v) && Bracketed(v)
    ensures Passes(TagTest, FieldLine(TagsKey, v)) && Passes(KeyTest(TagsKey), FieldLine(TagsKey, v))
    ensures '\n' !in FieldLine(TagsKey, v)
  {
    assert FieldKey(TagsKey);
    FieldLineRead(TagsKey, v);
  }

  /** A written tag list is read back as written, when it holds at most five tags. */
  lemma TagsOfTagList(ts: seq<string>)
    requires 1 <= |ts| <= MaxTags && CleanList(ts)
    ensures TagsOfLine(FieldLine(TagsKey, TagList(ts))) == ts
  {
    CleanListTags(ts);
    var list := TagList(ts);
    TagListShape(ts);
    assert FieldKey(TagsKey);
    FieldLineRead(TagsKey, list);
    TagChars(ts, ',');
    SplitOnJoin(ts, ',');
    CleanTagsOfTags(ts);
  }

  /** A `tags:` list of one to five clean tags, written after lines that are not bracketed
      `tags:` fields, is read back as written. */
  lemma TagsRoundTrip(pre: seq<string>, ts: seq<string>, rest: string)
    requires 1 <= |ts| <= MaxTags && CleanList(ts) && OneLineEach(pre)
    requires forall i :: 0 <= i < |pre| ==> !Passes(TagTest, pre[i])
    ensures ExtractTags(Preceded(pre, FieldLine(TagsKey, TagList(ts)) + "\n" + rest)) == ts
  {
    CleanListTags(ts);
    TagListShape(ts);
    TagsLineFirst(pre, TagList(ts), rest);
    TagsOfTagList(ts);
  }

  // ---------------------------------------------------------------------------
  // Cover image and front matter
  // ---------------------------------------------------------------------------

  const CoverKey: string := "cover_image:"

  /** `_extract_cover_image`: the `cover_image:` field, else nothing; the guard in front
      of the scan never hides a field line. */
  function ExtractCoverImage(content: string): (cover: string)
    ensures var field := FirstWhere(Lines(content), KeyTest(CoverKey));
      cover == if field.Some? then Value(Lines(content)[field.value]) else []
  {
    var lines := Lines(content);
    KeyGuardRedundant(content, CoverKey);
    var field := if Contains(content, CoverKey) then FirstWhere(lines, KeyTest(CoverKey)) else None;
    if field.Some? then Value(lines[field.value]) else []
  }

  /** A `cover_image:` field written after lines that are not is the cover image. */
  lemma CoverFromField(pre: seq<string>, v: string, rest: string)
    requires PlainValue(v) && OneLineEach(pre)
    requires forall i :: 0 <= i < |pre| ==> !Passes(KeyTest(CoverKey), pre[i])
    ensures ExtractCoverImage(Preceded(pre, FieldLine(CoverKey, v) + "\n" + rest)) == v
  {
    assert FieldKey(CoverKey);
    FieldLineRead(CoverKey, v);
    LineAfter(pre, FieldLine(CoverKey, v), rest, KeyTest(CoverKey));
    ValueOfField(CoverKey, v);
  }

  /** No `cover_image:` anywhere, no cover image. */
  lemma NoCoverField(content: string)
    requires !Contains(content, CoverKey)
    ensures ExtractCoverImage(content) == []
  {
  }

  const Fence: string := "---"

  predicate OccursAt(s: string, pat: string, k: nat) {
    k + |pat| <= |s| && s[k..k + |pat|] == pat
  }

  /** The first occurrence of `pat` at or after `from`. */
  function FindFrom(s: string, pat: string, from: nat): (r: Option<nat>)
    ensures r.Some? ==> from <= r.value && OccursAt(s, pat, r.value)
    ensures r.Some? ==> forall k :: from <= k < r.value ==> !OccursAt(s, pat, k)
    ensures r.None? ==> forall k :: from <= k ==> !OccursAt(s, pat, k)
    decreases |s| - from
  {
    if from + |pat| > |s| then None
    else if OccursAt(s, pat, from) then Some(from)
    else FindFrom(s, pat, from + 1)
  }

  /** `_clean_content`: `content.split('---', 2)` has a third part exactly when a second
      fence follows the opening one; that part, stripped, is the body. */
  function CleanContent(content: string): (r: string)
    ensures r == content || Trimmed(r)
  {
    if !StartsWith(content, Fence) then content
    else match FindFrom(content, Fence, |Fence|)
      case Some(k) => Strip(content[k + |Fence|..])
      case None => content
  }

  /** A post with front matter loses exactly the front matter and the surrounding
      whitespace of its body. */
  lemma CleanContentFrontMatter(fm: string, body: string)
    requires !Contains(fm + "--", Fence)
    ensures CleanContent(Fence + fm + Fence + body) == Strip(body)
  {
    var s := Fence + fm + Fence + body;
    var k := |Fence| + |fm|;
    assert StartsWith(s, Fence);
    assert OccursAt(s, Fence, k);
    assert s[3..k + 2] == fm + "--";
    forall j | 3 <= j < k ensures !OccursAt(s, Fence, j) {
      if OccursAt(s, Fence, j) {
        assert (fm + "--")[j - 3..j] == s[j..j + 3];
        ContainsAt(fm + "--", Fence, j - 3);
      }
    }
    FindFromFirst(s, Fence, |Fence|, k);
    assert s[k + 3..] == body;
  }

  /** The occurrence `FindFrom` returns is the first one. */
  lemma FindFromFirst(s: string, pat: string, from: nat, k: nat)
    requires from <= k && OccursAt(s, pat, k)
    requires forall j :: from <= j < k ==> !OccursAt(s, pat, j)
    ensures FindFrom(s, pat, from) == Some(k)
  {
  }

  /** An opening fence that is never closed leaves `split` with two parts, so the
      content, front matter and all, is sent as it is. */
  lemma CleanContentUnclosed(content: string)
    requires StartsWith(content, Fence)
    requires forall k :: |Fence| <= k ==> !OccursAt(content, Fence, k)
    ensures CleanContent(content) == content
  {
  }

  /** Without an opening fence the content is sent as it is. */
  lemma CleanContentUnfenced(content: string)
    requires !StartsWith(content, Fence)
    ensures CleanContent(content) == content
  {
  }

  // ---------------------------------------------------------------------------
  // Publishing
  // ---------------------------------------------------------------------------

  const Endpoint: string := "https://dev.to/api/articles"
  const TimeoutSeconds: nat := 30
  const MaxPayloadTags: nat := 4
  const DetailsLength: nat := 200
  const KeyMissing: string := "DEVTO_API_KEY not found"
  const PublishedMessage: string := "Successfully published to Dev.to!"
  const ApiErrorPrefix: string := "API error: "

  /** The `article` object of the request body. */
  datatype Article = Article(title: string, bodyMarkdown: string, published: bool, tags: seq<string>,
                             mainImage: Option<string>)

  datatype Request = Request(url: string, apiKey: string, article: Article, timeout: nat)

  /** The decoded body of a `201` reply. */
  datatype Created = Created(url: Option<string>, id: Option<int>)

  /** The reply to the POST: a status, its text and the decoding of its JSON; or the
      exception raised by the request. */
  datatype Response =
    | Http(status: int, text: string, json: Result<Created, string>)
    | RequestFailed(error: string)

  /** The JSON `_run` returns. */
  datatype Outcome =
    | Published(url: string, id: Option<int>, message: string)
    | Rejected(error: string, details: Option<string>)

  /** The article `_run` builds from the extracted title, body, tags and cover image:
      at most four tags, and a main image only when there is a cover image. */
  function Payload(title: string, body: string, published: bool, tags: seq<string>, cover: string): (a: Article)
    ensures a.title == title && a.bodyMarkdown == body && a.published == published
    ensures |a.tags| <= MaxPayloadTags && IsPrefixOf(a.tags, tags)
    ensures |tags| <= MaxPayloadTags ==> a.tags == tags
    ensures a.mainImage.Some? <==> cover != []
    ensures a.mainImage.Some? ==> a.mainImage.value == cover
  {
    Article(title, body, published, Take(tags, MaxPayloadTags), if cover != [] then Some(cover) else None)
  }

  /** The article for a post. */
  function PostArticle(content: string, published: bool): Article {
    Payload(ExtractTitle(content), CleanContent(content), published, ExtractTags(content), ExtractCoverImage(content))
  }

  /** The tags sent are clean ones. */
  lemma PostArticleTags(content: string, published: bool)
    ensures AllTags(PostArticle(content, published).tags)
  {
    AllTagsPrefix(PostArticle(content, published).tags, ExtractTags(content));
  }

  /** `_run`. `post` answers the request; `sent` is the request made, if any. */
  method Publish(apiKey: Option<string>, content: string, published: bool, post: Request -> Response)
    returns (r: Outcome, sent: Option<Request>)
    ensures apiKey.None? || apiKey.value == [] <==> sent.None?
    ensures sent.None? ==> r == Rejected(KeyMissing, None)
    ensures sent.Some? ==> sent.value == Request(Endpoint, apiKey.value, PostArticle(content, published), TimeoutSeconds)
    ensures sent.Some? ==> match post(sent.value)
      case RequestFailed(e) => r == Rejected(e, None)
      case Http(status, text, json) =>
        if status != 201 then
          && r.Rejected? && r.error == ApiErrorPrefix + IntToString(status)
          && r.details == Some(Take(text, DetailsLength))
          && |r.details.value| <= DetailsLength && IsPrefixOf(r.details.value, text)
          && (|text| <= DetailsLength ==> r.details.value == text)
          && (|text| > DetailsLength ==> |r.details.value| == DetailsLength)
        else if json.Failure? then r == Rejected(json.error, None)
        else r == Published(json.value.url.GetOr([]), json.value.id, PublishedMessage)
    ensures r.Published? <==> sent.Some? && post(sent.value).Http? && post(sent.value).status == 201
                              && post(sent.value).json.Success?
  {
    if apiKey.None? || apiKey.value == [] {
      return Rejected(KeyMissing, None), None;
    }
    var title := ExtractTitle(content);
    var tags := ExtractTags(content);
    var cover := ExtractCoverImage(content);
    var body := CleanContent(content);
    var article := Article(title, body, published, Take(tags, MaxPayloadTags), None);
    if cover != [] {
      article := article.(mainImage := Some(cover));
    }
    var request := Request(Endpoint, apiKey.value, article, TimeoutSeconds);
    sent := Some(request);
    var response := post(request);
    match response {
      case RequestFailed(e) =>
        r := Rejected(e, None);
      case Http(status, text, json) =>
        if status == 201 {
          match json {
            case Failure(e) => r := Rejected(e, None);
            case Success(created) => r := Published(created.url.GetOr([]), created.id, PublishedMessage);
          }
        } else {
          r := Rejected(ApiErrorPrefix + IntToString(status), Some(Take(text, DetailsLength)));
        }
    }
  }
}
