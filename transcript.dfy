/** `YouTubeTranscriptTool`: the text saved for one video (a transcript track, or the
    description), its cleanup, and the record appended to the per-topic transcript file.
    The transcript service is an oracle datatype; the clock is the parameter `now`. */
module Transcript {
  import opened Text
  import opened Wrappers

  /** One entry of `to_raw_data()`; `text` is `None` when the entry has no `text` key. */
  datatype Segment = Segment(text: Option<string>)

  /** A fetched track. `languageCode` is `None` when the track has no such attribute. */
  datatype Track = Track(languageCode: Option<string>, isGenerated: bool, segments: seq<Segment>)

  /** Finding and fetching a track: the track, or an exception on the way. */
  datatype Lookup = Found(track: Track) | Failed

  /** The transcript service for one video: whether listing its transcripts succeeds,
      and what `find_transcript` / `find_generated_transcript` give for a list of codes. */
  datatype TranscriptBackend = TranscriptBackend(
    listed: bool,
    find: seq<string> -> Lookup,
    findGenerated: seq<string> -> Lookup)

  datatype Source = Manual | AutoGenerated | DescriptionFallback | ErrorFallback

  function SourceName(s: Source): string {
    match s
    case Manual => "manual"
    case AutoGenerated => "auto-generated"
    case DescriptionFallback => "description-fallback"
    case ErrorFallback => "error-fallback"
  }

  const EnglishVariants: seq<string> := ["en", "en-US", "en-GB", "en-CA", "en-AU"]
  const Placeholder: string := "(No transcript or description available)"
  const NoLanguage: string := "n/a"
  const Width: nat := 400

  // ---------------------------------------------------------------- cleanup

  function Texts(segments: seq<Segment>): seq<string> {
    if segments == [] then [] else [segments[0].text.GetOr("")] + Texts(segments[1..])
  }

  /** `re.sub(r'\[\s*.*?\s*\]', '', s)`. At a `[` the pattern can only end at the first
      `]` after it (a `]` is not whitespace, so the lazy part stops there), and it matches
      exactly when the text in between, stripped, has no line break (`.` stops at `\n`);
      where it does not match, the `[` is kept and the scan goes on. */
  function StripBrackets(s: string): (r: string)
    ensures |r| <= |s|
    decreases |s|
  {
    if s == [] then []
    else if s[0] == '[' && IndexOf(s[1..], ']') < |s| - 1 && '\n' !in Strip(s[1..IndexOf(s[1..], ']') + 1]) then
      StripBrackets(s[IndexOf(s[1..], ']') + 2..])
    else [s[0]] + StripBrackets(s[1..])
  }

  /** Text without `[` is left alone. */
  lemma {:induction false} StripBracketsNoBracket(s: string)
    requires '[' !in s
    ensures StripBrackets(s) == s
  {
    if s != [] {
      StripBracketsNoBracket(s[1..]);
      assert s == [s[0]] + s[1..];
    }
  }

  /** A one-line annotation such as `[Music]` is cut out with its brackets. */
  lemma StripBracketsAnnotation(x: string, rest: string)
    requires ']' !in x && '\n' !in x
    ensures StripBrackets("[" + x + "]" + rest) == StripBrackets(rest)
  {
    var s := "[" + x + "]" + rest;
    assert s[1..] == x + "]" + rest;
    IndexOfAt(x, ']', rest);
    assert s[1..|x| + 1] == x;
    StripKeepsOut(x, '\n');
    assert s[|x| + 2..] == rest;
  }

  /** `re.sub(r'\s+', ' ', s)`: every run of whitespace becomes one space. */
  function Collapse(s: string): (r: string)
    ensures |r| <= |s|
    ensures r != [] ==> (IsSpace(r[0]) <==> IsSpace(s[0]))
    decreases |s|
  {
    if s == [] then []
    else if IsSpace(s[0]) then
      var t := TrimLeft(s);
      assert t != s;
      [' '] + Collapse(t)
    else [s[0]] + Collapse(s[1..])
  }

  /** Whitespace occurs only as single spaces. */
  predicate SingleSpaced(s: string) {
    && (forall i :: 0 <= i < |s| ==> IsSpace(s[i]) ==> s[i] == ' ')
    && (forall i :: 0 <= i < |s| - 1 ==> !(IsSpace(s[i]) && IsSpace(s[i + 1])))
  }

  lemma {:induction false} CollapseSingleSpaced(s: string)
    ensures SingleSpaced(Collapse(s))
    decreases |s|
  {
    if s != [] {
      if IsSpace(s[0]) {
        CollapseSingleSpaced(TrimLeft(s));
      } else {
        CollapseSingleSpaced(s[1..]);
      }
    }
  }

  /** Collapsing changes whitespace only. */
  lemma {:induction false} CollapseKeepsText(s: string)
    ensures RemoveSpace(Collapse(s)) == RemoveSpace(s)
    decreases |s|
  {
    if s != [] {
      if IsSpace(s[0]) {
        var t := TrimLeft(s);
        CollapseKeepsText(t);
        var k := |s| - |t|;
        assert s == s[..k] + t;
        RemoveSpaceAppend(s[..k], t);
        RemoveSpaceOfSpaces(s[..k]);
        RemoveSpaceAppend([' '], Collapse(t));
      } else {
        CollapseKeepsText(s[1..]);
        RemoveSpaceAppend([s[0]], Collapse(s[1..]));
        RemoveSpaceAppend([s[0]], s[1..]);
        assert s == [s[0]] + s[1..];
      }
    }
  }

  lemma StripSingleSpaced(s: string)
    requires SingleSpaced(s)
    ensures SingleSpaced(Strip(s))
  {
    var a, b := StripSlice(s);
    SingleSpacedSlice(s, a, b);
  }

  lemma SingleSpacedSlice(s: string, a: nat, b: nat)
    requires SingleSpaced(s) && a <= b <= |s|
    ensures SingleSpaced(s[a..b])
  {
    var r := s[a..b];
    forall i | 0 <= i < |r| ensures IsSpace(r[i]) ==> r[i] == ' ' {
      assert r[i] == s[a + i];
    }
    forall i | 0 <= i < |r| - 1 ensures !(IsSpace(r[i]) && IsSpace(r[i + 1])) {
      assert r[i] == s[a + i] && r[i + 1] == s[a + i + 1];
    }
  }

  /** The text of a fetched track: segment texts joined by spaces and stripped,
      annotations in brackets removed, whitespace runs collapsed, stripped again. */
  function CleanText(segments: seq<Segment>): (text: string)
    ensures Trimmed(text) && SingleSpaced(text)
  {
    var collapsed := Collapse(StripBrackets(Strip(Join(Texts(segments), " "))));
    CollapseSingleSpaced(StripBrackets(Strip(Join(Texts(segments), " "))));
    StripSingleSpaced(collapsed);
    Strip(collapsed)
  }

  /** Cleanup loses no non-whitespace character beyond the removed annotations: the
      words of the clean text spell out the bracket-stripped text without its whitespace. */
  lemma CleanTextKeepsWords(segments: seq<Segment>)
    ensures Concat(Words(CleanText(segments))) == RemoveSpace(StripBrackets(Strip(Join(Texts(segments), " "))))
  {
    var s := StripBrackets(Strip(Join(Texts(segments), " ")));
    WordsKeepText(CleanText(segments));
    RemoveSpaceStrip(Collapse(s));
    CollapseKeepsText(s);
  }

  /** `len(full_text.split()) if full_text else 0`. */
  function WordCount(text: string): (n: nat)
    ensures n == |Words(text)|
    ensures text == [] ==> n == 0
  {
    if text == [] then 0 else |Words(text)|
  }

  // ---------------------------------------------------------------- the fallback chain

  /** What the inner `try` leaves in `full_text`, `source_type` and `language_code`. */
  datatype Acquired = Acquired(text: string, source: Source, language: string)

  /** The text saved for a video: the preferred-language track, else a generated English
      track, else the description, else a placeholder. */
  function Acquire(backend: TranscriptBackend, description: string, preference: string): (a: Acquired)
    ensures a.source != ErrorFallback
    ensures a.source == DescriptionFallback <==>
      !backend.listed || (backend.find([preference]).Failed? && backend.findGenerated(EnglishVariants).Failed?)
    ensures a.source == DescriptionFallback ==>
      a.language == NoLanguage && a.text != [] && (description != [] ==> a.text == description)
    ensures a.source == Manual ==>
      backend.find([preference]).Found? && !backend.find([preference]).track.isGenerated
    ensures a.source != DescriptionFallback ==>
      Trimmed(a.text) && SingleSpaced(a.text)
  {
    if !backend.listed then Fallback(description)
    else match backend.find([preference])
      case Found(t) =>
        Acquired(CleanText(t.segments), if t.isGenerated then AutoGenerated else Manual, t.languageCode.GetOr(preference))
      case Failed =>
        match backend.findGenerated(EnglishVariants)
        case Found(t) => Acquired(CleanText(t.segments), AutoGenerated, t.languageCode.GetOr("en"))
        case Failed => Fallback(description)
  }

  function Fallback(description: string): (a: Acquired)
    ensures a.text != [] && a.language == NoLanguage
  {
    Acquired(if description != [] then description else Placeholder, DescriptionFallback, NoLanguage)
  }

  /** The preferred-language track wins whenever it can be fetched; its language is the
      track's own code, defaulting to the requested one. */
  lemma PreferredTrackFirst(backend: TranscriptBackend, description: string, preference: string)
    requires backend.listed && backend.find([preference]).Found?
    ensures var t := backend.find([preference]).track;
      && Acquire(backend, description, preference).text == CleanText(t.segments)
      && Acquire(backend, description, preference).language == t.languageCode.GetOr(preference)
      && (Acquire(backend, description, preference).source == AutoGenerated <==> t.isGenerated)
  {
  }

  /** Otherwise a generated English track is used, always reported as auto-generated. */
  lemma GeneratedEnglishSecond(backend: TranscriptBackend, description: string, preference: string)
    requires backend.listed && backend.find([preference]).Failed? && backend.findGenerated(EnglishVariants).Found?
    ensures var t := backend.findGenerated(EnglishVariants).track;
      && Acquire(backend, description, preference).text == CleanText(t.segments)
      && Acquire(backend, description, preference).source == AutoGenerated
      && Acquire(backend, description, preference).language == t.languageCode.GetOr("en")
  {
  }

  // ---------------------------------------------------------------- the record

  function Size(words: seq<string>): nat {
    if words == [] then 0 else |words[0]| + 1 + Size(words[1..])
  }

  /** A line of wrapped text: non-empty, at most `width` characters, no whitespace at
      its ends and none but single spaces inside. */
  predicate WrappedLine(line: string, width: nat) {
    && 0 < |line| <= width
    && !IsSpace(line[0]) && !IsSpace(line[|line| - 1])
    && forall i :: 0 <= i < |line| ==> IsSpace(line[i]) ==> line[i] == ' '
  }

  /** A word appended to a line after one space, when it fits, still makes a line. */
  lemma JoinedLine(line: string, w: string, width: nat)
    requires WrappedLine(line, width) && w != [] && NoSpace(w) && |line| + 1 + |w| <= width
    ensures WrappedLine(line + " " + w, width)
  {
    var joined := line + " " + w;
    forall i | 0 <= i < |joined| ensures IsSpace(joined[i]) ==> joined[i] == ' ' {
      if i > |line| { assert joined[i] == w[i - |line| - 1]; }
    }
    assert joined[|joined| - 1] == w[|w| - 1];
  }

  /** Greedy filling of lines of at most `width` characters from whole words, breaking a
      word longer than a line; `line` is the line being filled. */
  function Fill(words: seq<string>, line: string, width: nat): (lines: seq<string>)
    requires width > 0 && AllWords(words)
    requires line == [] || WrappedLine(line, width)
    ensures forall i :: 0 <= i < |lines| ==> WrappedLine(lines[i], width)
    decreases Size(words), |line|
  {
    if words == [] then (if line == [] then [] else [line])
    else
      var w := words[0];
      if line == [] then
        if |w| <= width then Fill(words[1..], w, width)
        else
          var rest := [w[width..]] + words[1..];
          assert rest[1..] == words[1..];
          [w[..width]] + Fill(rest, [], width)
      else if |line| + 1 + |w| <= width then
        JoinedLine(line, w, width);
        Fill(words[1..], line + " " + w, width)
      else [line] + Fill(words, [], width)
  }

  /** Filling keeps every non-whitespace character, in order. */
  lemma RemoveSpaceCons(l: string, lines: seq<string>)
    ensures RemoveSpace(Concat([l] + lines)) == RemoveSpace(l) + RemoveSpace(Concat(lines))
  {
    assert ([l] + lines)[1..] == lines;
    RemoveSpaceAppend(l, Concat(lines));
  }

  lemma RemoveSpaceJoined(line: string, w: string)
    requires NoSpace(w)
    ensures RemoveSpace(line + " " + w) == RemoveSpace(line) + w
  {
    RemoveSpaceAppend(line + " ", w);
    RemoveSpaceAppend(line, " ");
    RemoveSpaceOfNoSpace(w);
  }

  lemma {:induction false} FillKeepsText(words: seq<string>, line: string, width: nat)
    requires width > 0 && AllWords(words)
    requires line == [] || WrappedLine(line, width)
    ensures RemoveSpace(Concat(Fill(words, line, width))) == RemoveSpace(line) + Concat(words)
    decreases Size(words), |line|, 1
  {
    if words == [] {
      if line != [] {
        RemoveSpaceCons(line, []);
      }
    } else {
      var w, more := words[0], words[1..];
      assert Concat(words) == w + Concat(more);
      if line == [] {
        if |w| <= width {
          RemoveSpaceOfNoSpace(w);
          FillKeepsText(more, w, width);
        } else {
          FillLongWordKeepsText(words, width);
        }
      } else if |line| + 1 + |w| <= width {
        JoinedLine(line, w, width);
        FillKeepsText(more, line + " " + w, width);
        RemoveSpaceJoined(line, w);
      } else {
        FillFullLineKeepsText(words, line, width);
      }
    }
  }

  lemma {:induction false} FillLongWordKeepsText(words: seq<string>, width: nat)
    requires width > 0 && AllWords(words) && words != [] && |words[0]| > width
    ensures RemoveSpace(Concat(Fill(words, [], width))) == Concat(words)
    decreases Size(words), 0, 0
  {
    var w, more := words[0], words[1..];
    assert Concat(words) == w + Concat(more);
    var head, tail := w[..width], w[width..];
    var rest := [tail] + more;
    assert rest[0] == tail && rest[1..] == more;
    assert Concat(rest) == tail + Concat(more);
    FillKeepsText(rest, [], width);
    RemoveSpaceCons(head, Fill(rest, [], width));
    RemoveSpaceOfNoSpace(head);
    Assoc(head, tail, Concat(more));
    calc {
      RemoveSpace(Concat(Fill(words, [], width)));
      RemoveSpace(Concat([head] + Fill(rest, [], width)));
      head + RemoveSpace(Concat(Fill(rest, [], width)));
      { assert RemoveSpace([]) + Concat(rest) == Concat(rest); }
      head + Concat(rest);
      head + (tail + Concat(more));
      (head + tail) + Concat(more);
      { assert w == head + tail; }
      w + Concat(more);
    }
  }

  lemma {:induction false} FillFullLineKeepsText(words: seq<string>, line: string, width: nat)
    requires width > 0 && AllWords(words) && words != []
    requires WrappedLine(line, width) && |line| + 1 + |words[0]| > width
    ensures RemoveSpace(Concat(Fill(words, line, width))) == RemoveSpace(line) + Concat(words)
    decreases Size(words), |line|, 0
  {
    FillKeepsText(words, [], width);
    assert Fill(words, line, width) == [line] + Fill(words, [], width);
    RemoveSpaceCons(line, Fill(words, [], width));
  }

  /** `textwrap.wrap(text, width=400)`, as a greedy fill over the whitespace-separated words. */
  function Wrap(text: string): (lines: seq<string>)
    ensures forall i :: 0 <= i < |lines| ==> WrappedLine(lines[i], Width)
  {
    Fill(Words(text), [], Width)
  }

  /** Wrapping loses nothing but whitespace. */
  lemma WrapKeepsText(text: string)
    ensures RemoveSpace(Concat(Wrap(text))) == RemoveSpace(text)
  {
    FillKeepsText(Words(text), [], Width);
    WordsKeepText(text);
  }

  predicate OneLine(s: string) { '\n' !in s }

  const BeginMarker: string := "===== BEGIN TRANSCRIPT ====="
  const EndMarker: string := "===== END TRANSCRIPT ====="

  /** Lines each followed by a line break. */
  function Lines(ls: seq<string>): string {
    if ls == [] then [] else ls[0] + "\n" + Lines(ls[1..])
  }

  /** The header: its five lines and a final empty one, joined by line breaks. */
  function Header(videoId: string, language: string, source: string, savedAt: string): string {
    Lines(HeaderFields(videoId, language, source, savedAt))
  }

  function HeaderFields(videoId: string, language: string, source: string, savedAt: string): seq<string> {
    [BeginMarker, "Video ID: " + videoId, "Language: " + language, "Source: " + source, "Saved At: " + savedAt]
  }

  lemma {:induction false} LinesSplit(ls: seq<string>, tail: string)
    requires forall i :: 0 <= i < |ls| ==> OneLine(ls[i])
    ensures SplitOn(Lines(ls) + tail, '\n') == ls + SplitOn(tail, '\n')
  {
    if ls == [] {
      assert Lines(ls) + tail == tail;
    } else {
      var l, rest := ls[0], ls[1..];
      LinesSplit(rest, tail);
      Assoc(l + "\n", Lines(rest), tail);
      SplitOnAtSep(l, '\n', Lines(rest) + tail);
      ConsAppend(l, rest, SplitOn(tail, '\n'));
      assert ls == [l] + rest;
    }
  }

  /** One chunk as written: stripped and newline-terminated. */
  function ChunkLine(chunk: string): string {
    Strip(chunk) + "\n"
  }

  function Body(chunks: seq<string>): string {
    if chunks == [] then [] else ChunkLine(chunks[0]) + Body(chunks[1..])
  }

  lemma {:induction false} BodyAppend(chunks: seq<string>, c: string)
    ensures Body(chunks + [c]) == Body(chunks) + ChunkLine(c)
  {
    if chunks == [] {
      assert chunks + [c] == [c];
    } else {
      var rest := chunks[1..];
      assert chunks + [c] == [chunks[0]] + (rest + [c]);
      BodyAppend(rest, c);
      var l := ChunkLine(chunks[0]);
      assert l + (Body(rest) + ChunkLine(c)) == (l + Body(rest)) + ChunkLine(c);
    }
  }

  const Footer: string := "\n" + EndMarker + "\n" + "\n"

  /** What `_save_full_transcript` appends: header, one line per chunk, footer. */
  function Record(videoId: string, language: string, source: string, savedAt: string, text: string): (r: string)
    ensures StartsWith(r, BeginMarker + "\n") && EndsWith(r, Footer)
  {
    var header := Header(videoId, language, source, savedAt);
    assert header == BeginMarker + "\n" + Lines(HeaderFields(videoId, language, source, savedAt)[1..]);
    header + Body(Wrap(text)) + Footer
  }

  /** A wrapped line is written as itself followed by a line break. */
  lemma ChunkLineOfWrapped(c: string, width: nat)
    requires WrappedLine(c, width)
    ensures ChunkLine(c) == c + ['\n'] && '\n' !in c
  {
    StripTrimmed(c);
    forall i | 0 <= i < |c| ensures c[i] != '\n' {
      if IsSpace(c[i]) { assert c[i] == ' '; }
    }
  }

  /** A chunk written as itself and a line break, holding no line break of its own. */
  predicate PlainChunk(c: string) {
    '\n' !in c && ChunkLine(c) == c + ['\n']
  }

  lemma {:induction false} BodyLines(chunks: seq<string>, tail: string)
    requires forall i :: 0 <= i < |chunks| ==> PlainChunk(chunks[i])
    ensures SplitOn(Body(chunks) + tail, '\n') == chunks + SplitOn(tail, '\n')
  {
    if chunks == [] {
      assert Body(chunks) + tail == tail;
    } else {
      var c, rest := chunks[0], chunks[1..];
      assert PlainChunk(c);
      assert forall i :: 0 <= i < |rest| ==> PlainChunk(rest[i]) by {
        forall i | 0 <= i < |rest| ensures PlainChunk(rest[i]) {
          assert rest[i] == chunks[i + 1];
        }
      }
      BodyLines(rest, tail);
      Assoc(c + ['\n'], Body(rest), tail);
      SplitOnAtSep(c, '\n', Body(rest) + tail);
      ConsAppend(c, rest, SplitOn(tail, '\n'));
      calc {
        SplitOn(Body(chunks) + tail, '\n');
        SplitOn((c + ['\n'] + Body(rest)) + tail, '\n');
        SplitOn(c + ['\n'] + (Body(rest) + tail), '\n');
        [c] + SplitOn(Body(rest) + tail, '\n');
        [c] + (rest + SplitOn(tail, '\n'));
        { assert chunks == [c] + rest; }
        chunks + SplitOn(tail, '\n');
      }
    }
  }

  lemma FooterLines()
    ensures SplitOn(Footer, '\n') == ["", EndMarker, "", ""]
  {
    assert OneLine(EndMarker);
    SplitOnNoSep([], '\n');
    SplitOnAtSep([], '\n', []);
    assert "\n" == [] + ['\n'] + [];
    SplitOnAtSep(EndMarker, '\n', "\n");
    SplitOnAtSep([], '\n', EndMarker + "\n\n");
    assert EndMarker + "\n\n" == EndMarker + ['\n'] + "\n";
    assert Footer == [] + ['\n'] + (EndMarker + "\n\n");
  }

  /** The record, read line by line: the begin marker, the four header fields, one line of
      at most 400 characters per chunk of the wrapped text, an empty line, the end marker
      (the file's text goes on after the last line break). */
  lemma RecordLines(videoId: string, language: string, source: string, savedAt: string, text: string)
    requires OneLine(videoId) && OneLine(language) && OneLine(source) && OneLine(savedAt)
    ensures var lines := SplitOn(Record(videoId, language, source, savedAt, text), '\n');
      && lines == HeaderFields(videoId, language, source, savedAt) + Wrap(text) + ["", EndMarker, "", ""]
      && forall i :: 5 <= i < 5 + |Wrap(text)| ==> 0 < |lines[i]| <= Width
  {
    var fields := HeaderFields(videoId, language, source, savedAt);
    var chunks := Wrap(text);
    assert forall i :: 0 <= i < |fields| ==> OneLine(fields[i]);
    forall i | 0 <= i < |chunks| ensures PlainChunk(chunks[i]) {
      ChunkLineOfWrapped(chunks[i], Width);
    }
    Assoc(Header(videoId, language, source, savedAt), Body(chunks), Footer);
    LinesSplit(fields, Body(chunks) + Footer);
    BodyLines(chunks, Footer);
    FooterLines();
    Assoc(fields, chunks, ["", EndMarker, "", ""]);
  }

  const PathPrefix: string := "output/transcriptions/transcript_"
  const PathSuffix: string := ".txt"

  /** The per-topic transcript file: the f-string of youtube_tool.py:203. */
  function TranscriptPath(topic: string): string {
    PathPrefix + topic + PathSuffix
  }

  predicate NoBraces(s: string) {
    '{' !in s && '}' !in s
  }

  /** `s.format(topic=topic)`, read as follows: `{{` and `}}` are literal braces, `{topic}`
      is the topic, and a lone brace or a field naming anything but `topic` raises. A
      `topic` field with a conversion, a format spec, an index or an attribute (`{topic!r}`,
      `{topic:>5}`, `{topic[0]}`, `{topic.x}`) is read as raising too, although Python
      renders most of them. The failure carries the text at which formatting gave up. */
  function FormatTopic(s: string, topic: string): (r: Result<string, string>)
    decreases |s|
  {
    if s == [] then Success([])
    else if |s| > 1 && ((s[0] == '{' && s[1] == '{') || (s[0] == '}' && s[1] == '}')) then
      Prepend([s[0]], FormatTopic(s[2..], topic))
    else if s[0] == '}' then Failure(s)
    else if s[0] == '{' then
      var k := IndexOf(s[1..], '}');
      if k < |s| - 1 && s[1..k + 1] == TopicField then Prepend(topic, FormatTopic(s[k + 2..], topic))
      else Failure(s)
    else Prepend([s[0]], FormatTopic(s[1..], topic))
  }

  const TopicField: string := "topic"

  function Prepend(p: string, r: Result<string, string>): (q: Result<string, string>)
    ensures q.Success? <==> r.Success?
    ensures q.Success? ==> q.value == p + r.value
    ensures q.Failure? ==> q == r
  {
    if r.Success? then Success(p + r.value) else r
  }

  /** Brace-free text is copied by the format. */
  lemma {:induction false} FormatNoBraces(s: string, t: string, topic: string)
    requires NoBraces(s)
    ensures FormatTopic(s + t, topic) == Prepend(s, FormatTopic(t, topic))
  {
    if s != [] {
      var u := s + t;
      assert u[0] == s[0] && u[0] != '{' && u[0] != '}';
      assert u[1..] == s[1..] + t;
      FormatNoBraces(s[1..], t, topic);
      var r := FormatTopic(t, topic);
      assert FormatTopic(u, topic) == Prepend([s[0]], Prepend(s[1..], r));
      assert r.Success? ==> [s[0]] + (s[1..] + r.value) == s + r.value;
    } else {
      assert s + t == t;
      var r := FormatTopic(t, topic);
      assert r.Success? ==> [] + r.value == r.value;
    }
  }

  lemma FormatPlain(s: string, topic: string)
    requires NoBraces(s)
    ensures FormatTopic(s, topic) == Success(s)
  {
    FormatNoBraces(s, [], topic);
    assert s + [] == s;
  }

  /** youtube_tool.py:250 and 273: the path is the f-string formatted once more. */
  function WrittenPath(topic: string): (r: Result<string, string>)
    ensures r.Success? ==> StartsWith(r.value, PathPrefix)
  {
    assert NoBraces(PathPrefix);
    FormatNoBraces(PathPrefix, topic + PathSuffix, topic);
    assert PathPrefix + (topic + PathSuffix) == TranscriptPath(topic);
    FormatTopic(TranscriptPath(topic), topic)
  }

  /** The formatted path is the prefix followed by the formatted rest. */
  lemma WrittenPathSplit(topic: string)
    ensures WrittenPath(topic) == Prepend(PathPrefix, FormatTopic(topic + PathSuffix, topic))
  {
    assert NoBraces(PathPrefix);
    FormatNoBraces(PathPrefix, topic + PathSuffix, topic);
    assert PathPrefix + (topic + PathSuffix) == TranscriptPath(topic);
  }

  /** For a topic without braces the second formatting changes nothing. */
  lemma WrittenPathPlain(topic: string)
    requires NoBraces(topic)
    ensures WrittenPath(topic) == Success(TranscriptPath(topic))
  {
    WrittenPathSplit(topic);
    assert NoBraces(PathSuffix);
    FormatPlain(PathSuffix, topic);
    FormatNoBraces(topic, PathSuffix, topic);
    assert PathPrefix + (topic + PathSuffix) == TranscriptPath(topic);
  }

  /** A doubled brace formats to a single one. */
  lemma FormatDoubled(c: char, t: string, topic: string)
    requires c == '{' || c == '}'
    ensures FormatTopic([c, c] + t, topic) == Prepend([c], FormatTopic(t, topic))
  {
    var u := [c, c] + t;
    assert u[0] == c && u[1] == c && u[2..] == t;
  }

  /** A doubly braced name formats to the singly braced name. */
  lemma FormatEscaped(name: string, tail: string, topic: string)
    requires NoBraces(name) && NoBraces(tail)
    ensures FormatTopic(['{', '{'] + name + ['}', '}'] + tail, topic) == Success(['{'] + name + ['}'] + tail)
  {
    FormatPlain(tail, topic);
    FormatDoubled('}', tail, topic);
    FormatNoBraces(name, ['}', '}'] + tail, topic);
    FormatDoubled('{', name + (['}', '}'] + tail), topic);
    Assoc(['{', '{'], name, ['}', '}']);
    Assoc(['{', '{'] + name, ['}', '}'], tail);
    Assoc(['{', '{'], name, ['}', '}'] + tail);
    Assoc(name, ['}'], tail);
    Assoc(['{'], name, ['}'] + tail);
    Assoc(['{'] + name, ['}'], tail);
  }

  /** The topic `{{a}}` has its transcript written to `transcript_{a}.txt`, not to the
      file named by the f-string. */
  lemma WrittenPathEscapes()
    ensures WrittenPath("{{a}}") == Success(TranscriptPath("{a}"))
    ensures TranscriptPath("{a}") != TranscriptPath("{{a}}")
  {
    var topic := "{{a}}";
    WrittenPathSplit(topic);
    assert NoBraces(PathSuffix) && NoBraces("a");
    FormatEscaped("a", PathSuffix, topic);
    assert topic == ['{', '{'] + "a" + ['}', '}'];
    assert "{a}" == ['{'] + "a" + ['}'];
    Assoc(PathPrefix, "{a}", PathSuffix);
    assert |TranscriptPath("{a}")| != |TranscriptPath("{{a}}")|;
  }

  /** The topic `{x}` makes both saves raise `KeyError`. */
  lemma WrittenPathRaises()
    ensures WrittenPath("{x}").Failure?
  {
    var topic := "{x}";
    WrittenPathSplit(topic);
    var t := topic + PathSuffix;
    assert t[0] == '{' && t[1] != '{' && t[1..] == "x" + "}" + PathSuffix;
    IndexOfAt("x", '}', PathSuffix);
    assert t[1..2] != TopicField;
  }

  /** The text of the error-fallback record: `f"(Error occurred) {e}\n\n{description}".strip()`. */
  function ErrorText(error: string, description: string): (r: string)
    ensures StartsWith(r, ErrorLabel) && Trimmed(r)
  {
    var s := ErrorMarker + error + BlankLine + description;
    assert s[..|ErrorLabel|] == ErrorLabel;
    StripKeepsPrefix(s, |ErrorLabel|);
    Strip(s)
  }

  /** The marker without its trailing space, which `strip()` removes when the error and
      the description are blank. */
  const ErrorLabel: string := "(Error occurred)"

  const ErrorMarker: string := "(Error occurred) "
  const BlankLine: string := "\n\n"

  predicate IsPrefix(a: string, b: string) { |a| <= |b| && b[..|a|] == a }

  /** The transcript files, path to content. Files are only ever appended to. */
  class TranscriptStore {
    var files: map<string, string>

    constructor (initial: map<string, string>)
      ensures files == initial
    {
      files := initial;
    }

    function Contents(path: string): string
      reads this
    {
      Read(files, path)
    }

    /** The content of a file; a file never written reads as empty. */
    static function Read(files: map<string, string>, path: string): string {
      if path in files then files[path] else ""
    }

    /** Appending `t` to one file, or nothing at all, leaves every other file as it was. */
    static lemma Grown(before: map<string, string>, after: map<string, string>, path: string, t: string)
      requires after == before[path := Read(before, path) + t] || (t == [] && after == before)
      ensures Read(after, path) == Read(before, path) + t
      ensures forall p :: p != path ==> Read(after, p) == Read(before, p)
    {
      if after == before {
        assert Read(before, path) + [] == Read(before, path);
      }
    }

    method Append(path: string, text: string)
      modifies this
      ensures files == old(files)[path := old(Contents(path)) + text]
    {
      files := files[path := Contents(path) + text];
    }

    static lemma UpdateTwice(m: map<string, string>, k: string, a: string, b: string)
      ensures m[k := a][k := b] == m[k := b]
    {
    }

    /** The loop writing one line per chunk. */
    method WriteChunks(path: string, chunks: seq<string>)
      requires path in files
      modifies this
      ensures files == old(files)[path := old(Contents(path)) + Body(chunks)]
    {
      ghost var start := Contents(path);
      assert start + Body(chunks[..0]) == start;
      assert files == files[path := start];
      var i := 0;
      while i < |chunks|
        invariant 0 <= i <= |chunks|
        invariant files == old(files)[path := start + Body(chunks[..i])]
      {
        Append(path, ChunkLine(chunks[i]));
        BodyAppend(chunks[..i], chunks[i]);
        PrefixSnoc(chunks, i);
        Assoc(start, Body(chunks[..i]), ChunkLine(chunks[i]));
        i := i + 1;
      }
      FullPrefix(chunks);
    }

    /** `_save_full_transcript`. `fault` is the exception creating the directory or
        opening the file raises, if any; then nothing is written. */
    method SaveFullTranscript(videoId: string, text: string, language: string, source: string,
                              path: string, now: string, fault: Option<string>)
      returns (error: Option<string>)
      modifies this
      ensures error == fault
      ensures fault.None? ==> files == old(files)[path := old(Contents(path)) + Record(videoId, language, source, now, text)]
      ensures fault.Some? ==> files == old(files)
    {
      if fault.Some? {
        return fault;
      }
      var header := Header(videoId, language, source, now);
      var chunks := Wrap(text);
      ghost var start := Contents(path);
      Append(path, header);
      WriteChunks(path, chunks);
      Assoc(start, header, Body(chunks));
      UpdateTwice(old(files), path, start + header, start + (header + Body(chunks)));
      Assoc(start, header + Body(chunks), Footer);
      Append(path, Footer);
      UpdateTwice(old(files), path, start + (header + Body(chunks)), start + Record(videoId, language, source, now, text));
      return None;
    }
  }

  /** The JSON status `_run` returns. */
  datatype TranscriptStatus =
    | Saved(videoId: string, source: Source, language: string, wordCount: nat, savedTo: string, timestamp: string)
    | Errored(videoId: string, error: string, savedTo: string, timestamp: string)
  {
    function Status(): string {
      if Saved? then "success" else "error"
    }
  }

  /** The inner `try` of `YouTubeTranscriptTool._run`: each step reassigns the text, the
      source and the language until one succeeds. */
  method AcquireText(backend: TranscriptBackend, description: string, preference: string)
    returns (fullText: string, source: Source, language: string)
    ensures Acquired(fullText, source, language) == Acquire(backend, description, preference)
  {
    fullText, source, language := "", DescriptionFallback, preference;
    if backend.listed {
      var lookup := backend.find([preference]);
      if lookup.Found? {
        source := if lookup.track.isGenerated then AutoGenerated else Manual;
        language := lookup.track.languageCode.GetOr(preference);
      } else {
        lookup := backend.findGenerated(EnglishVariants);
        if lookup.Found? {
          source := AutoGenerated;
          language := lookup.track.languageCode.GetOr("en");
        }
      }
      if lookup.Found? {
        fullText := CleanText(lookup.track.segments);
        return;
      }
    }
    fullText := if description != [] then description else Placeholder;
    source := DescriptionFallback;
    language := NoLanguage;
  }

  /** The outer `try` of `YouTubeTranscriptTool._run`: save the record; if that raises,
      append an error-fallback record instead and report the error; if that raises too,
      the exception escapes (`Failure`). `savedAt` is the clock reading inside the save
      that writes, `reportedAt` the one in the status. */
  method SaveWithFallback(store: TranscriptStore, videoId: string, text: string, language: string, source: Source,
                          description: string, path: string, savedAt: string, reportedAt: string,
                          firstSave: Option<string>, secondSave: Option<string>)
    returns (r: Result<TranscriptStatus, string>)
    modifies store
    ensures firstSave.None? ==>
      && r == Success(Saved(videoId, source, language, WordCount(text), path, reportedAt))
      && store.files == old(store.files)[path := old(store.Contents(path)) + Record(videoId, language, SourceName(source), savedAt, text)]
    ensures firstSave.Some? && secondSave.None? ==>
      && r == Success(Errored(videoId, firstSave.value, path, reportedAt))
      && store.files == old(store.files)[path := old(store.Contents(path))
           + Record(videoId, NoLanguage, SourceName(ErrorFallback), savedAt, ErrorText(firstSave.value, description))]
    ensures firstSave.Some? && secondSave.Some? ==> r == Failure(secondSave.value) && store.files == old(store.files)
    ensures IsPrefix(old(store.Contents(path)), store.Contents(path))
  {
    var error := store.SaveFullTranscript(videoId, text, language, SourceName(source), path, savedAt, firstSave);
    if error.None? {
      return Success(Saved(videoId, source, language, WordCount(text), path, reportedAt));
    }
    var fallbackText := ErrorText(error.value, description);
    var error2 := store.SaveFullTranscript(videoId, fallbackText, NoLanguage, SourceName(ErrorFallback), path, savedAt, secondSave);
    if error2.Some? {
      return Failure(error2.value);
    }
    return Success(Errored(videoId, error.value, path, reportedAt));
  }

  /** The status `YouTubeTranscriptTool._run` reports, or the exception escaping it: a
      `success` status exactly when the regular save works, an `error` status when only the
      error-fallback save works, an exception when both fail. */
  function ExtractResult(backend: TranscriptBackend, videoId: string, description: string, preference: string,
                         topic: string, reportedAt: string, firstSave: Option<string>, secondSave: Option<string>)
    : (r: Result<TranscriptStatus, string>)
    ensures r.Success? ==> r.value.videoId == videoId && r.value.savedTo == TranscriptPath(topic)
    ensures r.Success? && r.value.Status() == "success" <==> firstSave.None?
    ensures r.Failure? <==> firstSave.Some? && secondSave.Some?
    ensures r.Success? && r.value.Saved? ==> r.value.source != ErrorFallback
  {
    var a := Acquire(backend, description, preference);
    match firstSave
    case None => Success(Saved(videoId, a.source, a.language, WordCount(a.text), TranscriptPath(topic), reportedAt))
    case Some(e) =>
      if secondSave.Some? then Failure(secondSave.value)
      else Success(Errored(videoId, e, TranscriptPath(topic), reportedAt))
  }

  /** The text one `YouTubeTranscriptTool._run` appends to the topic's file: the record of
      the acquired text, the error-fallback record, or nothing when both saves raise. */
  function ExtractAppend(backend: TranscriptBackend, videoId: string, description: string, preference: string,
                         savedAt: string, firstSave: Option<string>, secondSave: Option<string>): (t: string)
    ensures t == [] <==> firstSave.Some? && secondSave.Some?
  {
    var a := Acquire(backend, description, preference);
    match firstSave
    case None => Record(videoId, a.language, SourceName(a.source), savedAt, a.text)
    case Some(e) =>
      if secondSave.Some? then []
      else Record(videoId, NoLanguage, SourceName(ErrorFallback), savedAt, ErrorText(e, description))
  }

  /** `YouTubeTranscriptTool._run`. `firstSave` and `secondSave` are the faults of the
      regular save and of the error-fallback save. The topic's file gains `ExtractAppend`
      and no other file changes. */
  method Extract(store: TranscriptStore, backend: TranscriptBackend, videoId: string, description: string,
                 preference: string, topic: string, savedAt: string, reportedAt: string,
                 firstSave: Option<string>, secondSave: Option<string>)
    returns (r: Result<TranscriptStatus, string>)
    modifies store
    ensures r == ExtractResult(backend, videoId, description, preference, topic, reportedAt, firstSave, secondSave)
    ensures store.Contents(TranscriptPath(topic)) == old(store.Contents(TranscriptPath(topic)))
      + ExtractAppend(backend, videoId, description, preference, savedAt, firstSave, secondSave)
    ensures forall p :: p != TranscriptPath(topic) ==> store.Contents(p) == old(store.Contents(p))
  {
    var fullText, source, language := AcquireText(backend, description, preference);
    var path := TranscriptPath(topic);
    ghost var before := store.files;
    ghost var t := ExtractAppend(backend, videoId, description, preference, savedAt, firstSave, secondSave);
    r := SaveWithFallback(store, videoId, fullText, language, source, description, path, savedAt, reportedAt, firstSave, secondSave);
    TranscriptStore.Grown(before, store.files, path, t);
  }
}
