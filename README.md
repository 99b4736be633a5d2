# Agentic RAG tools in Dafny

This project models the five tools of Agentic-RAG-CrewAI that do the real work, spread over
four source files. It proves what each of them promises.

- `SearchAndEmbeddingTool` (module `SearchAndEmbed`) is the aggregation tool.
  - Every web search result that has a URL is added to the RAG knowledge base. Each one
    ends up either embedded or failed.
  - A YouTube search follows. Each video it finds is transcribed into the query's
    transcript file, and that file is then added to the knowledge base.
  - The run reports a summary of four counts.
- `YouTubeSearchTool` (modules `VideoSearch`, `Relevance`, `Duration`) does the search.
  - Only videos of at least five minutes are kept.
  - Each video gets a relevance score made of five bounded terms. The list is ranked by
    score with a stable sort.
  - It parses ISO 8601 `PT#H#M#S` durations and writes `HH:MM:SS` clock strings.
- `YouTubeTranscriptTool` (module `Transcript`) picks the text saved for a video. It tries,
  in order:
  1. the track in the preferred language;
  2. a generated English track;
  3. the video's description;
  4. a placeholder.

  It then cleans the text: bracketed annotations are removed and whitespace is collapsed.
  The text is wrapped at 400 characters. A delimited record is appended to an append-only
  per-topic file. If that save fails, an error record is saved instead.
- `DevToPublisherTool` (module `DevTo`) publishes a post.
  - It reads the title, the tags and the cover image out of a markdown post's front matter.
  - It removes the front matter.
  - It posts the article and interprets the reply.
- `PexelsCoverImageTool` (module `CoverImage`) finds a cover image.
  - A photo must pass a size and aspect-ratio gate.
  - A photo is treated as a Google DeepMind photo by its photographer's name.
  - There are two searches, each with a cap on the candidates it checks.
  - `_run` tries three sources in priority order.

`Text` holds Python's string semantics as used by the tools: the whitespace set of
`str.isspace`, `strip`, `split()`, `split(sep)`, `join` and ASCII `lower`. `Wrappers` holds
`Option` and `Result`.

Everything outside the program is a parameter:

- The web APIs (Tavily, YouTube Data, the transcript service, Pexels, Dev.to) are
  datatypes of functions.
- The knowledge base is a class. It counts its `add` calls and holds a fault oracle that
  gives the exception of the n-th call, if any.
- Each save of a transcript file takes a fault as a parameter.
- `random.shuffle` is an arbitrary permutation, indexed by the order of its calls.
  `random.choice` and `random.randint` are arbitrary values in their ranges.
- Each clock reading is a parameter.

Where the code and its specification disagree, the model follows the code. The final
`rag_tool.add` of the transcript file (tools/search_and_emb.py:123) is outside any `try`.
So, unlike the promise that the aggregation tool never raises after construction, a run
ends in `Failure` when that call raises (`SearchAndEmbed.Run`).

## Model

| member | source | states |
|---|---|---|
| Duration.DigitRun | tools/youtube_tool.py:128 | the greedy `\d+`: the longest all-digit prefix, followed by a non-digit or the end |
| Duration.ParseDuration | tools/youtube_tool.py:126-131 | a code that does not start with `PT` gives 0 (`re.match` fails) |
| Duration.ParseCode | tools/youtube_tool.py:128-136 | for every choice of present or absent hour, minute and second groups followed by a non-digit, the parse is `h*3600 + m*60 + s` with absent groups 0 |
| Duration.DayCodeIsZero | tools/youtube_tool.py:128-130 | a duration with a day part (`P1DT…`) parses to 0 seconds |
| Duration.FormatDuration | tools/youtube_tool.py:138-147 | the clock string has at least five characters, all digits or colons, and at least eight (the hours field) from one hour on |
| Duration.ClockSplit | tools/youtube_tool.py:138-147 | the clock string is colon-separated two-digit fields: hours, minutes, seconds when hours > 0, else minutes and seconds |
| Duration.ClockFields | tools/youtube_tool.py:138-147 | reading the clock string back gives `[h, m, s]` or `[m, s]` of the duration |
| Duration.FormatDurationRoundTrip | tools/youtube_tool.py:126-147 | the formatted clock reads back to the same number of seconds, with three fields exactly from one hour on and minutes and seconds below 60; the `PT#H#M#S` code of a split duration parses back to it |
| Relevance.CountMatches | tools/youtube_tool.py:155-156 | the number of topic words found in the title is at most the word count, equal to it exactly when all are found, 0 exactly when none is |
| Relevance.TitleTerm | tools/youtube_tool.py:153-157 | `None` (the division by zero) exactly when the topic has no words; otherwise within [0, 40], 40 exactly when every word occurs, 0 exactly when none does |
| Relevance.ViewTerm | tools/youtube_tool.py:159-162 | 0 up to 10000 views, `views / 50000` above that, capped at 20 from one million views |
| Relevance.EngagementTerm | tools/youtube_tool.py:164-169 | within [0, 20]; 0 without views; positive when there are views and any like or comment |
| Relevance.DurationTerm | tools/youtube_tool.py:171-178 | one of 0, 5, 7, 10; 0 exactly below 300 seconds; 7 exactly from 300 to under 600; 10 exactly from 600 to 1800; 5 exactly above 1800 |
| Relevance.RecencyTerm | tools/youtube_tool.py:180-186 | one of 0, 5, 10; 10 exactly up to 7 days old; 0 exactly beyond 30 days |
| Relevance.Score | tools/youtube_tool.py:149-188 | fails exactly when the topic has no words; otherwise within [0, 100] |
| VideoSearch.RequestCap | tools/youtube_tool.py:55 | `min(max_results, 50)` |
| VideoSearch.RequestFor | tools/youtube_tool.py:50-60 | the request searches the topic and asks for at most 50 results |
| VideoSearch.Preview | tools/youtube_tool.py:95 | a description of up to 500 characters is kept whole; a longer one becomes its first 500 characters and `...` |
| VideoSearch.BuildRecord | tools/youtube_tool.py:88-107 | no record exactly when the topic has no words; otherwise every field as built: id, title, full description and its `Preview`, publication date, channel, parsed duration and its `FormatDuration` clock, the view, like and comment counts (0 when absent), the high thumbnail URL, the watch URL, and the score, which is `Relevance.Score` of the item and lies within [0, 100] |
| VideoSearch.LongItems | tools/youtube_tool.py:80-86 | every item kept lasts at least 300 seconds |
| VideoSearch.Collect | tools/youtube_tool.py:80-108 | one record per long video, in the order of the reply, carrying that video's id |
| VideoSearch.CollectFails | tools/youtube_tool.py:80-108 | collecting fails exactly when the topic has no words and at least one video is long enough to be scored |
| VideoSearch.CollectLong | tools/youtube_tool.py:80-108 | the loop over the details computes `Collect` |
| VideoSearch.InsertPermutes | tools/youtube_tool.py:111 | inserting adds exactly the one record |
| VideoSearch.InsertSorted | tools/youtube_tool.py:111 | inserting into a list ranked by descending score keeps it ranked |
| VideoSearch.SortByScore | tools/youtube_tool.py:111 | the ranking keeps the number of records (its order and content are proved by `SortByScoreRanks` and `SortByScoreStable`) |
| VideoSearch.SortByScoreRanks | tools/youtube_tool.py:111 | the ranking is a permutation of the records, in descending score order |
| VideoSearch.SortByScoreStable | tools/youtube_tool.py:111 | records of equal score keep their relative order (the sort is stable) |
| VideoSearch.Outcome | tools/youtube_tool.py:32-124 | the result echoes the topic; a listing's `total_found` is its length; the no-videos message comes only with an empty list; an error carries the `Error searching YouTube: ` prefix |
| VideoSearch.OutcomeFails | tools/youtube_tool.py:44-124 | the search reports an error exactly when one of the two API calls raises, or the topic has no words and some video is long enough to be scored |
| VideoSearch.OutcomeListsLongVideos | tools/youtube_tool.py:62-118 | a listing holds one record per long video, and records of equal score stay in API order |
| VideoSearch.OutcomeRanked | tools/youtube_tool.py:80-118 | a listing is ranked by descending score and holds no video under 300 seconds |
| VideoSearch.Search | tools/youtube_tool.py:32-124 | the search method returns `Outcome` |
| Transcript.StripBracketsNoBracket | tools/youtube_tool.py:235 | text without `[` is left unchanged |
| Transcript.StripBrackets | tools/youtube_tool.py:235 | removing annotations never lengthens the text (what is removed is proved by `StripBracketsNoBracket` and `StripBracketsAnnotation`) |
| Transcript.StripBracketsAnnotation | tools/youtube_tool.py:235 | a one-line bracketed annotation such as `[Music]` is removed with its brackets |
| Transcript.CollapseSingleSpaced | tools/youtube_tool.py:236 | after collapsing, whitespace occurs only as single spaces |
| Transcript.CollapseKeepsText | tools/youtube_tool.py:236 | collapsing keeps every non-whitespace character in order |
| Transcript.Collapse | tools/youtube_tool.py:236 | collapsing never lengthens the text and keeps whether it starts with whitespace (single spacing and kept text are proved by the two lemmas above) |
| Transcript.CleanText | tools/youtube_tool.py:231-236 | the cleaned track text is stripped and single-spaced |
| Transcript.CleanTextKeepsWords | tools/youtube_tool.py:231-236 | the words of the cleaned text spell out the bracket-stripped text without its whitespace |
| Transcript.WordCount | tools/youtube_tool.py:254 | the number of `split()` words, 0 for the empty text |
| Transcript.Acquire | tools/youtube_tool.py:205-242 | the description fallback is used exactly when listing fails or neither track is found; it then has language `n/a` and a non-empty text equal to the description when there is one; `manual` only for a non-generated preferred track; track text is stripped and single-spaced |
| Transcript.Fallback | tools/youtube_tool.py:238-242 | the description, or the placeholder, is never empty and has language `n/a` |
| Transcript.PreferredTrackFirst | tools/youtube_tool.py:216-221 | a found preferred-language track wins; its language defaults to the requested one, and its source is `auto-generated` exactly when the track is generated |
| Transcript.GeneratedEnglishSecond | tools/youtube_tool.py:222-229 | otherwise a generated English track is used, labelled `auto-generated`, with language defaulting to `en` |
| Transcript.AcquireText | tools/youtube_tool.py:205-242 | the fallback chain as statements computes `Acquire` |
| Transcript.Fill | tools/youtube_tool.py:302 | the greedy fill yields lines of 1 to 400 characters with no surrounding whitespace |
| Transcript.FillKeepsText | tools/youtube_tool.py:302 | filling keeps every non-whitespace character of the words, in order |
| Transcript.Wrap | tools/youtube_tool.py:302 | every chunk has 1 to 400 characters and no surrounding whitespace |
| Transcript.WrapKeepsText | tools/youtube_tool.py:302 | wrapping keeps every non-whitespace character of the text, in order |
| Transcript.ChunkLineOfWrapped | tools/youtube_tool.py:307 | `chunk.strip() + "\n"` adds only the line break to a wrapped chunk |
| Transcript.LinesSplit | tools/youtube_tool.py:291-305 | lines written each with a line break split back into those lines |
| Transcript.BodyAppend | tools/youtube_tool.py:306-307 | one more chunk appends one more line to the body |
| Transcript.BodyLines | tools/youtube_tool.py:306-307 | the body splits back into its chunks |
| Transcript.FooterLines | tools/youtube_tool.py:299-308 | the footer splits into an empty line, the end marker and two empty lines |
| Transcript.RecordLines | tools/youtube_tool.py:284-308 | an appended record splits into the begin marker and the four header fields, then directly the wrapped chunks (each 1 to 400 characters; the header list's trailing empty element only ends the `Saved At` line), then an empty line, the end marker and two empty lines |
| Transcript.Record | tools/youtube_tool.py:291-308 | a record starts with the begin marker line and ends with the footer |
| Transcript.TranscriptStore.Append | tools/youtube_tool.py:304-308 | appending changes only the one file, adding the text at its end |
| Transcript.TranscriptStore.WriteChunks | tools/youtube_tool.py:306-307 | the chunk loop appends exactly the body to the file |
| Transcript.TranscriptStore.SaveFullTranscript | tools/youtube_tool.py:284-308 | a save without fault appends exactly one record to the file; a faulty save changes nothing |
| Transcript.SaveWithFallback | tools/youtube_tool.py:244-282 | a working save appends the transcript record, stamped with the save's own clock reading, and reports `success` with the word count and the status's clock reading; a failing one appends an `error-fallback` record and reports `error`; when that save fails too, the exception escapes and no file changes |
| Transcript.ErrorText | tools/youtube_tool.py:267 | the error-fallback text starts with `(Error occurred)` and has no surrounding whitespace |
| Transcript.FormatNoBraces | tools/youtube_tool.py:250 | `str.format` passes a brace-free prefix through unchanged |
| Transcript.FormatPlain | tools/youtube_tool.py:250 | `str.format` leaves a brace-free string as it is |
| Transcript.FormatDoubled | tools/youtube_tool.py:250 | `str.format` turns a doubled brace into a single one |
| Transcript.FormatEscaped | tools/youtube_tool.py:250 | `str.format` unescapes a doubled-brace name instead of substituting it |
| Transcript.WrittenPath | tools/youtube_tool.py:203-250 | a path that `.format` produces starts with `output/transcriptions/transcript_` (`topic` fields with a conversion, spec, index or attribute are read as raising; see "## Left out") |
| Transcript.WrittenPathPlain | tools/youtube_tool.py:203-250 | for a topic without braces, the path written to is the intended `output/transcriptions/transcript_<topic>.txt` |
| Transcript.WrittenPathEscapes | tools/youtube_tool.py:203-250 | for topic `{{a}}` the tool writes to the file of topic `{a}`, not to its own |
| Transcript.WrittenPathRaises | tools/youtube_tool.py:250-273 | for topic `{x}` the `.format` call raises |
| Transcript.ExtractResult | tools/youtube_tool.py:198-282 | the status names the video and the topic's file; the status is `success` exactly when the regular save works; the tool raises exactly when both saves fail; a saved track is never labelled `error-fallback` |
| Transcript.Extract | tools/youtube_tool.py:198-282 | the tool returns `ExtractResult`; the topic's file gains exactly `ExtractAppend` at its end and every other file is unchanged |
| Transcript.ExtractAppend | tools/youtube_tool.py:244-274 | the tool appends nothing exactly when both saves raise; otherwise the record of the acquired text or the error-fallback record |
| Transcript.TranscriptStore.Grown | tools/youtube_tool.py:304-308 | an append, or nothing when nothing is appended, grows the one file by the text and leaves every other file as it was |
| SearchAndEmbed.Configure | tools/search_and_emb.py:36-41 | construction succeeds exactly when both keys are set and non-empty; the Tavily key is checked first |
| SearchAndEmbed.KnowledgeBase.Add | tools/search_and_emb.py:84-123 | one more call; the source is kept exactly when the call does not raise |
| SearchAndEmbed.Split | tools/search_and_emb.py:76-89 | every embedded or failed entry has a non-empty URL |
| SearchAndEmbed.SplitCounts | tools/search_and_emb.py:78-87 | every result with a URL lands in exactly one of embedded and failed; the failed ones are the calls that raised |
| SearchAndEmbed.SplitAllEmbedded | tools/search_and_emb.py:78-87 | with a knowledge base that never raises, every result with a URL is embedded |
| SearchAndEmbed.Pages | tools/search_and_emb.py:84-85 | one `web_page` source per embedded URL, in order |
| SearchAndEmbed.SearchWebAndEmbed | tools/search_and_emb.py:68-89 | a failed search gives the error with empty lists and no `add` call; otherwise the loop produces the split, makes one call per result with a URL, and adds exactly the embedded pages |
| SearchAndEmbed.EntryFor | tools/search_and_emb.py:104-120 | an entry reads `success` exactly when the tool saved the transcript; it records an exception exactly when the tool raised |
| SearchAndEmbed.Entry | tools/search_and_emb.py:103-120 | the i-th entry names the i-th video, reads `success` exactly when its regular save works, and records an exception exactly when both of its saves fail |
| SearchAndEmbed.Entries | tools/search_and_emb.py:102-120 | one entry per video, in listing order |
| SearchAndEmbed.TranscriptFile | tools/search_and_emb.py:122 | the ingested file is the one the transcript tool appends to |
| SearchAndEmbed.TranscribeVideo | tools/search_and_emb.py:104-120 | one loop pass gives the video's entry; the query's transcript file gains that video's appended text and no other file changes |
| SearchAndEmbed.TranscribeAll | tools/search_and_emb.py:102-120 | the loop gives `Entries`, one per video; the query's transcript file gains `Appended` over all videos, in order, and no other file changes |
| SearchAndEmbed.AppendedEmpty | tools/search_and_emb.py:102-120 | the loop appends nothing to the transcript file exactly when both saves failed for every video |
| SearchAndEmbed.SearchYouTubeAndTranscribe | tools/search_and_emb.py:91-126 | the listing's videos with their `Entries`; the final `add` is one call, and the branch fails exactly when it raises, with its error; the file is added only on success; the transcript file gains `Appended` over the videos and no other file changes |
| SearchAndEmbed.Transcribed | tools/search_and_emb.py:60 | at most one transcribed video per entry |
| SearchAndEmbed.TranscribedCountsSaves | tools/search_and_emb.py:60-120 | over any prefix of the videos, the transcribed count is the number of regular saves that worked, whatever text source was used |
| SearchAndEmbed.TranscribedEntries | tools/search_and_emb.py:60-120 | over the whole listing, the transcribed count is the number of regular saves that worked |
| SearchAndEmbed.Summarize | tools/search_and_emb.py:56-61 | the four counts are the embedded and failed web results, the videos found and the transcribed entries; with one entry per video, transcribed never exceeds found |
| SearchAndEmbed.WebBranch | tools/search_and_emb.py:53-89 | the web branch returns `WebResult`, makes one call per result with a URL, and adds only the embedded pages |
| SearchAndEmbed.WebResult | tools/search_and_emb.py:68-89 | a failed search gives its error with empty lists; a search with results gives no error |
| SearchAndEmbed.SummaryCounts | tools/search_and_emb.py:53-66 | the summary counts as embedded the web results with a URL whose `add` did not raise, as failed those whose `add` raised, as found the listed videos and as transcribed the videos whose regular save worked |
| SearchAndEmbed.Run | tools/search_and_emb.py:52-66 | the run fails exactly when the transcript file's `add` raises, with its error, and the knowledge base then keeps the embedded pages added before; otherwise the report holds the query, `WebResult`, the listing with its `Entries`, and a summary with the four exact counts of `SummaryCounts`; the knowledge base gains the embedded pages, then the transcript file; the transcript file gains `Appended` over the videos and no other file changes |
| DevTo.FirstTrue | tools/devto_publisher_tool.py:89-91 | the first true flag from a position on, or none |
| DevTo.FirstWhere | tools/devto_publisher_tool.py:89-91 | the first line passing a test: it passes, and no earlier line does |
| DevTo.AfterColon | tools/devto_publisher_tool.py:91 | `split(':', 1)[1]` is a suffix of the line |
| DevTo.KeyLineInContent | tools/devto_publisher_tool.py:88-90 | a line passing the key test means the key occurs in the content |
| DevTo.KeyGuardRedundant | tools/devto_publisher_tool.py:88-90 | the `'key' in content` guard does not change which line is found |
| DevTo.FieldLineRead | tools/devto_publisher_tool.py:89-91 | a `key: value` line passes the key test and reads back its value |
| DevTo.LinesPreceded | tools/devto_publisher_tool.py:89 | splitting a text with lines written in front gives those lines, then the text's lines |
| DevTo.FirstWhereAfter | tools/devto_publisher_tool.py:89-91 | after lines that fail a test, a passing line is the first found |
| DevTo.LineAfter | tools/devto_publisher_tool.py:88-91 | a passing line written after lines that fail the test is found, at its position |
| DevTo.ExtractTitle | tools/devto_publisher_tool.py:85-98 | when some line is a `title:` field, the title is the value of the first such line |
| DevTo.TitleFromField | tools/devto_publisher_tool.py:88-91 | a `title:` line written after any lines that are not title fields gives its value as the title |
| DevTo.TitleOfFrontMatter | tools/devto_publisher_tool.py:88-91 | in a post opening with the `---` fence, a `title:` line after it gives the title |
| DevTo.TitleFromHeading | tools/devto_publisher_tool.py:88-96 | when no line is a `title:` field, the first `# ` heading line, wherever it is, gives the stripped heading |
| DevTo.TitleDefault | tools/devto_publisher_tool.py:85-98 | when no line is a `title:` field or a `# ` heading the title is `Untitled Post` |
| DevTo.Alnum | tools/devto_publisher_tool.py:111 | only ASCII letters and digits remain |
| DevTo.CleanTag | tools/devto_publisher_tool.py:111 | a cleaned tag holds only lower-case letters and digits |
| DevTo.CleanTags | tools/devto_publisher_tool.py:111-112 | the result is empty exactly when every entry is blank, and keeps every entry exactly when none is blank; never longer than the input; each tag lower-case letters and digits |
| DevTo.TagsOfLine | tools/devto_publisher_tool.py:104-113 | at most five tags, each lower-case letters and digits |
| DevTo.TagGuardRedundant | tools/devto_publisher_tool.py:102-106 | a line that passes the tags test puts `tags:` in the content, so the `'tags:' in content` guard never hides it |
| DevTo.ExtractTags | tools/devto_publisher_tool.py:100-114 | the tags of the first `tags:` line whose value is bracketed, and `[]` when there is none; at most five, each lower-case letters and digits |
| DevTo.SplitOnJoin | tools/devto_publisher_tool.py:108 | splitting a comma-joined list of comma-free parts gives the parts back |
| DevTo.CleanTagsOfTags | tools/devto_publisher_tool.py:108-112 | clean tags pass through the stripping and cleaning unchanged |
| DevTo.TagListShape | tools/devto_publisher_tool.py:105-107 | a written tag list is a bracketed single-line value whose inside is the comma-joined tags |
| DevTo.TagsOfTagList | tools/devto_publisher_tool.py:104-113 | a `tags: [..]` line of one to five clean tags reads back as those tags |
| DevTo.TagsLineFirst | tools/devto_publisher_tool.py:100-113 | a bracketed `tags:` line written after lines that are not is the one read |
| DevTo.TagsRoundTrip | tools/devto_publisher_tool.py:100-114 | a written list of one to five clean tags, after lines that are not bracketed `tags:` lines, yields exactly those tags |
| DevTo.CoverFromField | tools/devto_publisher_tool.py:117-122 | a `cover_image:` line written after lines that are not cover fields gives its value |
| DevTo.ExtractCoverImage | tools/devto_publisher_tool.py:117-123 | the cover image is the value of the first `cover_image:` line, or empty when there is none |
| DevTo.NoCoverField | tools/devto_publisher_tool.py:119-123 | without the key the cover image is empty |
| DevTo.FindFrom | tools/devto_publisher_tool.py:128 | the first occurrence of the fence from a position on, or none |
| DevTo.CleanContent | tools/devto_publisher_tool.py:125-131 | the content is returned unchanged or stripped |
| DevTo.CleanContentFrontMatter | tools/devto_publisher_tool.py:127-130 | a `---` front-matter block is removed and the rest stripped |
| DevTo.CleanContentUnclosed | tools/devto_publisher_tool.py:127-131 | content that opens with `---` but never closes it is returned unchanged, front matter included |
| DevTo.CleanContentUnfenced | tools/devto_publisher_tool.py:127-131 | content not starting with `---` is returned unchanged |
| DevTo.Payload | tools/devto_publisher_tool.py:40-51 | title, body and `published` as given; the first four tags; `main_image` exactly when there is a cover image |
| DevTo.PostArticleTags | tools/devto_publisher_tool.py:32-46 | the posted tags are lower-case letters and digits |
| DevTo.Publish | tools/devto_publisher_tool.py:21-83 | nothing is sent without a key; otherwise the request carries the endpoint, the key and the article; 201 with a JSON body publishes; another status gives `API error: <status>` and the first 200 characters of the reply; a raised request or an undecodable body gives its error |
| CoverImage.Configure | tools/image_search_tool.py:24-26 | construction succeeds exactly when the key is set and non-empty |
| CoverImage.FitsCrossMultiplied | tools/image_search_tool.py:187-189 | the gate is at least 600 by 300 with `1.5 <= w/h <= 4.0`, which is `3h <= 2w <= 8h` |
| CoverImage.AltText | tools/image_search_tool.py:193 | the alt text is never empty |
| CoverImage.CheckSuitability | tools/image_search_tool.py:182-208 | unsuitable exactly when the gate fails; a missing photographer raises exactly for a fitting photo; otherwise every field of the cover record as built |
| CoverImage.SuitableFits | tools/image_search_tool.py:187-203 | a cover passes the gate, and a `dev_to_optimized` cover is 1000 to 1800 pixels wide |
| CoverImage.IsDeepMindByName | tools/image_search_tool.py:116-120 | the two-test filter amounts to `deepmind` occurring in the lower-cased photographer |
| CoverImage.DeepMindHasPhotographer | tools/image_search_tool.py:116-196 | a DeepMind photo has a photographer |
| CoverImage.DeepMindPhotos | tools/image_search_tool.py:116-120 | exactly the DeepMind photos of the list are kept |
| CoverImage.DeepMindPhotosCount | tools/image_search_tool.py:116-120 | each DeepMind photo is kept as often as it occurs; the others never are |
| CoverImage.FirstCheckUnsuitable | tools/image_search_tool.py:127-130 | the candidate loop finds nothing exactly when no candidate passes the gate |
| CoverImage.FirstCheckIsFirst | tools/image_search_tool.py:127-174 | the loop's result is the suitability check of the first candidate that passes the gate |
| CoverImage.FirstCheckOfDeepMind | tools/image_search_tool.py:127-196 | DeepMind candidates never raise for a missing photographer |
| CoverImage.FirstSuitable | tools/image_search_tool.py:127-130 | the candidate loop computes `FirstCheck` |
| CoverImage.DeepMindSearchFinds | tools/image_search_tool.py:92-136 | a cover found by the DeepMind search is marked DeepMind, is by a DeepMind photographer, passes the gate, and was found by one of the queries tried |
| CoverImage.SearchDeepMindPhotos | tools/image_search_tool.py:92-136 | the search over the first three shuffled queries computes `DeepMindSearch` |
| CoverImage.GeneralSearchFinds | tools/image_search_tool.py:138-180 | a cover found by the general search passes the gate, is marked DeepMind exactly when the page had DeepMind photos (and is then by one), and names its query |
| CoverImage.SearchWithDeepMindFilter | tools/image_search_tool.py:138-180 | the general search method computes `GeneralSearch` |
| CoverImage.Run | tools/image_search_tool.py:48-90 | the DeepMind result wins; then the topic search; then, only when `attempts >= 2`, the fallback query; otherwise the not-found error naming the attempts |

## Left out

- Python's Unicode lower-casing: `Text.Lower` lower-cases ASCII letters only.
- Python's `\d` matching every Unicode decimal digit: `Duration.DigitRun` takes ASCII digits only.
- Floating point: scores and aspect ratios are exact reals, and `round(aspect_ratio, 2)` is not applied to `CoverImage.Cover.aspectRatio`.
- `Transcript.Wrap`: a greedy fill over the `split()` words stands in for `textwrap.wrap`. Only the facts it shares with `textwrap.wrap` are claimed: line length, no surrounding whitespace, and the kept non-whitespace characters in order. The differences are left out:
  - `textwrap.wrap` turns each whitespace character into a space but keeps runs of them inside a line, where the model joins words with single spaces. This shows in the texts not collapsed before wrapping: the description fallback and the error-fallback text, such as `(Error occurred) e\n\ndesc`.
  - `textwrap.wrap` breaks only at ASCII whitespace, so a non-ASCII space such as U+00A0 stays inside a word, where `Text.Words` (Python's `split()`) breaks at it.
  - `textwrap.wrap` also breaks after hyphens and splits words longer than 400 characters.
- JSON: layout, key order and `indent` are not modelled. Replies are read as decoded values. A missing key that would raise `KeyError` (for example `item['snippet']['title']`) is not modelled.
- Dates and clocks: `datetime.now()`, `isoformat`, the `publishedAfter` cutoff and each video's age are parameters, as is `time.time()`. The transcript tool reads the clock twice per save, once for the record's `Saved At` line (tools/youtube_tool.py:290) and once for the status's `timestamp` (tools/youtube_tool.py:262). These are two parameters, `savedAt` and `reportedAt`, given per video in `SearchAndEmbed.TranscriptWorld`.
- Directory creation and file opening: `Transcript.TranscriptStore.SaveFullTranscript` fails atomically. A partial write is not modelled.
- HTTP details are left out: headers, timeouts, `orientation`, the base URL, Tavily's `search_depth` and `max_results`, and `include_raw_content`.
- `print` logging is left out (tools/image_search_tool.py:133, 179, tools/search_and_emb.py:98-99).
- The handler at tools/search_and_emb.py:97-100 is not modelled because it cannot be reached. `YouTubeSearchTool._run` catches every exception and returns JSON. `SearchAndEmbed.Found` reads an error reply as no videos.
- The knowledge base's embedding work is not modelled: each `add` is atomic and either keeps its source or raises.
- The text of `str.format` errors is not modelled: `Transcript.WrittenPath` only says that the call raises.
- `Transcript.WrittenPath`: a `topic` field with a conversion, a format spec, an index or an attribute, such as `{topic!r}`, `{topic!s}`, `{topic:>5}`, `{topic[0]}` or `{topic.x}`, is modelled as raising. Python renders most of these: with topic `{topic!r}` it writes to `output/transcriptions/transcript_'{topic!r}'.txt`. Conversions, format specs, indexing and attribute lookup are not modelled, so for topics holding such fields the model reports a failure where Python may write to a differently named file. For topics without these forms the model is exact.
- A JSON `null` photographer or title is not modelled: such a value makes `.lower()` raise, and the model has no case for it.
- `DevTo.Publish`: the reply's `id` is read as given, and a missing `url` becomes the empty string.
- `CoverImage.Run` and the two search methods: `random.shuffle` and `random.randint` are an arbitrary permutation and an arbitrary page. The distribution of choices is not modelled.

## Findings

`Transcript.WrittenPath` models the path as written. `Transcript.WrittenPathEscapes` and `Transcript.WrittenPathRaises` exhibit the two inputs. The rest of the model uses the intended path: `SearchAndEmbed.TranscriptFile` is proved equal to `Transcript.TranscriptPath`, which `Transcript.ExtractResult` and `Transcript.Extract` use.

| source | as written | input that shows it | evidently intended | confidence | as-written member | corrected member |
|---|---|---|---|---|---|---|
| tools/youtube_tool.py:203-280 | the transcript path is built with an f-string that already holds the topic, then passed through `.format(topic=topic)` a second time (at lines 250, 273 and 280), while tools/search_and_emb.py:122 ingests the f-string path | topic `{{a}}` writes to `transcript_{a}.txt` while `transcript_{{a}}.txt` is ingested; topic `{x}` makes `.format` raise `KeyError`, once in the normal path and again in the error handler | every transcript is appended to `output/transcriptions/transcript_<topic>.txt`, the file that is later ingested | not executed | Transcript.WrittenPathEscapes | SearchAndEmbed.TranscriptFile |
