# Reddit Opportunity Radar — a verified model of its decision pipeline

Reddit Opportunity Radar watches a handful of start-up subreddits for posts
that sound like an unmet software need ("how do i", "alternative to",
"wish there was", …), asks a language model whether each candidate is a
SaaS opportunity, and keeps the high-scoring verdicts. The repository holds
four generations of the same idea:

- **v2** (`market_radar_v2.py`): the `MarketRadar` object. It keeps a
  `seen_posts` set and a `post_buffer` list. Each post of a fetched page is
  screened into the buffer: it must be new, its body must be at least 30
  characters, and it must hold a trigger phrase. After a whole page, a
  buffer of at least `BATCH_SIZE` posts is sent to OpenAI or Gemini in one
  request. The verdicts are matched back to buffered posts by `post_id`,
  the good ones are appended to a CSV file by `CSVWriter.save`, and the
  buffer is emptied.
- **json** (`market_radar_json.py`): the same screen without batching or a
  length floor. Each unseen post with a trigger phrase is sent to Gemini on
  its own, and a verdict with a score of at least 7 is appended to the CSV
  file at once.
- **stream** (`market_radar.py`): the live `praw` stream. It keeps the
  ordered list of trigger phrases found, uses a 20-character length floor,
  cleans code fences off Gemini's answer, and reports each submission on
  its own.
- **legacy** (`market_radar_legacy.py`): no AI. It checks the credentials,
  then lists and counts every submission with a trigger phrase, either
  over the latest 100 submissions or over the live stream, with a
  200-character preview.

## Modules

Every file is one module:

- `Wrappers`: `Option` and `Outcome`. `Outcome.Raised` stands for a Python
  exception that escapes.
- `Text`: the Python string operations the scripts use: substring test,
  ASCII `lower`, slicing, `replace`, `strip` and `join`.
- `Json`: parsed JSON values, with Python's truthiness, `dict.get`,
  comparison with an `int`, and `for` iteration.
- `Feed`: posts and submissions, plus the shared keyword screen.
- `CsvSink`: the CSV file, seen as an exists flag and its rows.
- `AnalyzerV2`: the analyzer class of v2.
- `RadarV2`, `RadarJson`, `RadarStream`, `RadarLegacy`: one module per
  script.

How each script's form is modelled:

- v2's `MarketRadar` and json's module-level `seen_posts` are classes whose
  methods update their fields. Each method is proved against a function on
  the abstract state (`Process`/`ProcessPage`, `Run`).
- The loops of the scripts are `while` loops, proved against recursive
  specification functions. The properties the scripts promise are proved
  as lemmas about those functions.

## Model

| member | source | states |
|---|---|---|
| Feed.FoundKeywordsSpec | market_radar.py:91-94 | `found_keywords` holds exactly the keywords that occur in the lower-cased `title + " " + selftext`. They keep the order of the keyword list and there are at most as many as keywords. |
| Feed.AnyKeywordIffFound | market_radar.py:94-96 | The `any(...)` screen of the other scripts accepts a text iff `found_keywords` is non-empty. |
| Text.Lower | market_radar_v2.py:333 | `.lower()` keeps the length, maps each character by itself and leaves no ASCII capital. |
| Text.Strip | market_radar_v2.py:212 | `.strip()` leaves no whitespace at either end and removes only whitespace. |
| Text.NoFenceAfterRemoval | market_radar_v2.py:214 | After removing `` ```json `` and then `` ``` ``, no fence marker of either kind is left. |
| Text.FencedBodyKept | market_radar_v2.py:214 | Removing `` ```json `` and then `` ``` `` from `` ```json `` + body + `` ``` `` gives back a backtick-free body unchanged. |
| Text.ReplaceClosingFence | market_radar_v2.py:214 | Removing `` ``` `` from a backtick-free text followed by one closing `` ``` `` gives the text back. |
| Text.StripUntrimmed | market_radar_v2.py:212 | `.strip()` leaves a text unchanged when neither end is whitespace. |
| Text.Take | market_radar_v2.py:136 | `s[:n]` is the prefix of length `min(n, len(s))`. |
| Json.AsInt | market_radar_v2.py:360-361 | A value works as a number or list index iff it is an int or a bool (`True` is 1). Anything else raises. |
| Json.AtLeast | market_radar_v2.py:357 | `v >= k` is the integer comparison for ints and bools and raises for any other value. |
| Json.Iterate | market_radar_v2.py:356 | `for res in results` yields a list's items, and yields nothing for an empty dict or string. Any other value raises, either at iteration or at the first `.get`. |
| CsvSink.CsvFile.OpenForAppend | market_radar_v2.py:232 | Opening for append creates a missing file and keeps every existing row. |
| CsvSink.CsvFile.WriteHeader | market_radar_v2.py:235-236 | `writeheader` appends exactly the header row. |
| CsvSink.CsvFile.WriteRecord | market_radar_v2.py:239-246 | `writerow` appends exactly one record row. |
| CsvSink.AppendedTwice | market_radar_json.py:87-94 | A second header-once append, to a file the first one created, adds only records. |
| CsvSink.HeaderWrittenOnce | market_radar_v2.py:227-236 | From a missing file, any series of saves leaves either no file (every batch was empty) or one header followed by every record in call order. |
| AnalyzerV2.EveryPostIsFormatted | market_radar_v2.py:129-139 | The request contains each buffered post's block, labelled `POST ID i` for its own position, with its link and at most 1500 characters of its text. |
| AnalyzerV2.FormatPosts | market_radar_v2.py:129-139 | The string accumulated in the loop is the concatenation of the posts' blocks in buffer order. |
| AnalyzerV2.NormaliseOpenAi | market_radar_v2.py:190-197 | A dict with `"results"` gives that entry and a list is kept. Any other truthy value becomes a one-element list and a falsy one the empty list. |
| AnalyzerV2.CleanGeminiText | market_radar_v2.py:212-214 | The result is stripped. If the stripped text started with a fence, no fence marker is left; otherwise the result is the stripped text. What lies between the markers is kept: see `AnalyzerV2.CleanGeminiTextUnwraps`. |
| AnalyzerV2.CleanGeminiTextUnwraps | market_radar_v2.py:212-214 | A backtick-free body wrapped as `` ```json `` + body + `` ``` `` comes out as the stripped body. |
| AnalyzerV2.BatchResults | market_radar_v2.py:108-127 | An empty buffer gives `[]` without a call. A failed call gives `[]`. |
| AnalyzerV2.UnparsableAnswerGivesNothing | market_radar_v2.py:119-127 | An answer that does not parse gives `[]`, whichever provider answered. |
| AnalyzerV2.AnalyzeBatch | market_radar_v2.py:108-127 | An empty buffer gives `[]`. Otherwise the request carries the post count, every post's block and the threshold. A failed call or an unparsable answer gives `[]`. OpenAI's parsed answer is reshaped by `NormaliseOpenAi`; Gemini's answer is parsed after `CleanGeminiText`. |
| RadarV2.Process | market_radar_v2.py:322-349 | The id is marked seen whatever the outcome. The result is true iff the post was unseen, its body has at least 30 characters and it holds a keyword. That happens iff the buffer grew by one. The new entry is `title + "\n" + selftext` with the `https://www.reddit.com` link, and earlier entries are unchanged. |
| RadarV2.ShortPostNeverBuffered | market_radar_v2.py:336-337 | A post with a body under 30 characters is never buffered, whatever phrases it holds. |
| RadarV2.PageOutcome | market_radar_v2.py:305-308 | After a page, every id on it is seen. The buffer has gained exactly the entries of the page's first sightings that pass the screen, in feed order, and `new_count` is their number. |
| RadarV2.JudgeSpec | market_radar_v2.py:356-369 | A kept verdict is a dict with a truthy `is_opportunity`, a score of at least the minimum, and an int `post_id` in `[-n, n)`. It is the verdict with `permalink` set to that buffer slot's link. A falsy `is_opportunity` is dropped. |
| RadarV2.JudgeCases | market_radar_v2.py:356-369 | The converse of `JudgeSpec`, case by case. A verdict that passes the three tests (`is_opportunity` truthy, score at least the minimum, `post_id` present and below `n`) is kept with the link of the slot it names when `-n <= post_id`, and raises below `-n`. A low score, a missing `post_id` or one `>= n` drops it. A non-dict verdict, a score that cannot be compared, or a non-numeric `post_id` raises. |
| RadarV2.JudgeKeptIff | market_radar_v2.py:357-360 | A verdict is kept iff it passes the three tests and its `post_id` is an int in `[-n, n)`. |
| RadarV2.NegativePostIdCountsFromEnd | market_radar_v2.py:360-361 | `post_id = -1` passes the index check and attaches the last buffered post's link. |
| RadarV2.ReconcileSelects | market_radar_v2.py:356-369 | When no verdict raises, the opportunities are exactly the kept verdicts, in the order the answer listed them. |
| RadarV2.ReconcileKeepsEveryApproved | market_radar_v2.py:356-369 | When the loop does not raise, every verdict that passes the three tests and names an existing slot is among the opportunities, with that slot's link. |
| RadarV2.ReconcileRaisesIff | market_radar_v2.py:356-369 | The verdict loop raises iff some verdict makes its body raise. |
| RadarV2.ReconcileStaysRaised | market_radar_v2.py:356-369 | Once one verdict has raised, the whole loop has raised. |
| RadarV2.ReconcileVerdicts | market_radar_v2.py:354-369 | The loop appends kept verdicts in order and stops at the first exception. |
| RadarV2.Save | market_radar_v2.py:225-248 | An empty list leaves the file alone. Otherwise the header is written iff the file was missing, then one row per opportunity in order, with `N/A` for missing fields. |
| RadarV2.MarketRadar.constructor | market_radar_v2.py:254-257 | The radar starts with no seen ids and an empty buffer. |
| RadarV2.MarketRadar.ProcessPost | market_radar_v2.py:322-349 | The method's new seen set, buffer and return value are those of `Process`. |
| RadarV2.MarketRadar.ProcessPosts | market_radar_v2.py:305-308 | The page loop's state and `new_count` are those of `ProcessPage`. |
| RadarV2.MarketRadar.AnalyzeBuffer | market_radar_v2.py:351-377 | The outcome is the reconciliation of the batch answer. The seen set is untouched. The file gains the rows of a non-empty result. The buffer is emptied unless the verdict loop raised. |
| RadarV2.MarketRadar.ScanCycle | market_radar_v2.py:302-312 | The whole page is processed first. A buffer below `BATCH_SIZE` carries over with the file unchanged. A buffer of at least `BATCH_SIZE` (possibly more) is analysed as `AnalyzeBuffer` states. |
| RadarJson.AnalyzeWithGemini | market_radar_json.py:43-83 | A failed call gives `None`. An answered call gives exactly the parse of the model's answer (`None` when it does not parse), and the function never raises. |
| RadarJson.ExamineSpec | market_radar_json.py:136-164 | Gemini is asked iff the post holds a keyword. A record is found only for a truthy `is_opportunity` and a score of at least 7, and carries the post's permalink. |
| RadarJson.ExamineFindsIff | market_radar_json.py:141-164 | A record is found iff the post holds a keyword and its analysis is a dict with a truthy `is_opportunity` and a score of at least 7. The record is then that analysis with the post's permalink. The body raises iff the analysis is truthy but not a dict, or its score cannot be compared after a truthy `is_opportunity`. |
| RadarJson.RunTracksSeen | market_radar_json.py:128-134 | `new_count` is the number of ids seen for the first time, whatever the keyword outcome. Ids are only added. All of the page's ids are seen unless the pass raised. |
| RadarJson.RunSavesQualified | market_radar_json.py:149-164 | Records are saved in feed order and never taken back. Each has a truthy `is_opportunity`, a score of at least 7 and a permalink from the page. |
| RadarJson.RunFindsEvery | market_radar_json.py:128-164 | A pass in which no first sighting raises saves exactly the found records of the page's first sightings, in feed order. |
| RadarJson.RunRaisesAtFirstFailure | market_radar_json.py:128-177 | At the first first sighting whose body raises, the pass ends raised, holding exactly the found records of the first sightings before it. |
| RadarJson.RunStopsOnceRaised | market_radar_json.py:175-177 | An exception in the loop body ends the pass, and the rest of the page is skipped. |
| RadarJson.SaveToCsv | market_radar_json.py:86-103 | Each call appends exactly one row, after the header iff the file did not exist before the call. |
| RadarJson.FileAfterSnoc | market_radar_json.py:86-103 | One more save extends the file by one row, after a header only if the file was still missing. |
| RadarJson.FileAfterClosedForm | market_radar_json.py:162-164 | However many records a pass saves, the file gains at most one header (first, and only if missing), then one row per record. With no record the file is untouched. |
| RadarJson.Scanner.constructor | market_radar_json.py:41 | `seen_posts` starts empty. |
| RadarJson.Scanner.Visit | market_radar_json.py:128-164 | One iteration changes the state and the file as `Apply` on the verdict of `Examine`. A found record is written immediately. |
| RadarJson.Scanner.ScanPage | market_radar_json.py:124-169 | The pass over a page ends in `Run`'s state. The file holds the header (if missing and something was found) and one row per record found. |
| RadarStream.CleanReply | market_radar.py:71 | The cleaned text holds no fence marker and has no whitespace at either end. A text without fences is only stripped. What lies between the markers is kept: see `RadarStream.CleanReplyUnwraps`. |
| RadarStream.CleanReplyUnwraps | market_radar.py:71 | A backtick-free body wrapped as `` ```json `` + body + `` ``` `` comes out as the stripped body. |
| RadarStream.AnalyzeWithAi | market_radar.py:44-75 | No key, or an empty key, gives `None` without a call. With a key, a failed call gives `None` and an answered call gives exactly the parse of the cleaned answer. |
| RadarStream.ReportedOpportunityQualifies | market_radar.py:105-117 | An opportunity is reported only for a body of at least 20 characters, a truthy `is_opportunity` and a score of at least 7, with the `https://reddit.com` link. A low score is one below 7. |
| RadarStream.SilentIffScreenedOut | market_radar.py:91-100 | The `NoKeyword` report is given iff no trigger phrase is in the lower-cased title and body (a missing body counts as empty). Nothing is printed iff that holds or the body is under 20 characters. |
| RadarStream.RateIffApproved | market_radar.py:105-119 | For any analysis: an opportunity iff it is a dict with a truthy `is_opportunity` and a score of at least 7, carrying that score, the link and the analysis. A low score iff such a dict's score compares below 7. |
| RadarStream.OpportunityIffApproved | market_radar.py:94-119 | An opportunity is reported iff the submission holds a trigger phrase, has a body of at least 20 characters, and its analysis approves it. The report carries the score, the `https://reddit.com` link and the analysis. It is reported as low-scoring iff such an analysis has a score below 7. |
| RadarStream.NoCallBeforeScreens | market_radar.py:96-103 | Without a keyword or without a 20-character body, the report does not depend on the model at all. |
| RadarStream.MissingKeyFindsNothing | market_radar.py:46-47 | Without an API key no submission is reported as an opportunity or as low-scoring. |
| RadarStream.ScanStream | market_radar.py:88-122 | Each submission gets its own report, so an exception on one leaves all the others' reports unchanged. |
| RadarLegacy.ValidateCredentials | market_radar_legacy.py:42-52 | The result is OK iff both values are set, non-empty and not the placeholder. The id is checked first. |
| RadarLegacy.FormatPost | market_radar_legacy.py:55-75 | The signal shows the `", "`-joined trigger line, the title, the link `https://www.reddit.com` + permalink and the preview, which is present exactly for a non-empty body. |
| RadarLegacy.Preview | market_radar_legacy.py:69-73 | No preview for an empty body. Otherwise the first 200 characters with `'\n'` turned into spaces, and `...` appended iff the body is longer than 200. |
| RadarLegacy.PreviewShape | market_radar_legacy.py:69-72 | A preview never holds a line break. A short body without line breaks is shown unchanged. |
| RadarLegacy.TriggerLineNamesEvery | market_radar_legacy.py:62 | Every phrase found appears in the `", "`-joined trigger line. |
| RadarLegacy.Step | market_radar_legacy.py:126-131 | One submission raises `found_count` by at most one, and adds a shown signal exactly when it does. |
| RadarLegacy.Scan | market_radar_legacy.py:125-141 | `found_count` equals the number of signals shown and never exceeds the number of submissions iterated. |
| RadarLegacy.ScanStep | market_radar_legacy.py:136-141 | A submission with trigger phrases adds exactly one to the count and shows exactly its signal. One without any leaves everything unchanged. A missing body raises. |
| RadarLegacy.ScriptScreen | market_radar_legacy.py:23-39 | With the script's own 15-phrase list, a submission yields at most 15 phrases, and it is counted iff one of them occurs. |
| RadarLegacy.SnapshotListing | market_radar_legacy.py:135 | Snapshot mode iterates a prefix of the listing of at most 100 submissions. |
| RadarLegacy.ScanReddit | market_radar_legacy.py:119-151 | The counter loop gives `Scan`'s count and signals. In snapshot mode the count is at most 100. |
| RadarLegacy.ScanStaysAborted | market_radar_legacy.py:150-151 | Once a submission has raised, the rest of the stream is never looked at. |

## Left out

- Reddit transport is not modelled: `requests.get`, the 429 and non-200 branches of `_scan_cycle`, timeouts, `response.json()`, the `praw` streams and `reddit.user.me()`. A fetched page is an input sequence of posts.
- Missing keys in a post (`post_data['id']`, `['permalink']`) are not modelled: every post carries an id, title, body and permalink.
- The language-model SDK calls are the parameter `llm`. It either raises (`CallFailed`) or returns text. `json.loads` is the parameter `parse`, and `None` stands for a parse error.
- The prompt wording of `_create_prompt` and the two single-post prompts is left out. The v2 request is modelled as the post count, the formatted posts and the minimum score.
- Sleeps, cooldowns, the `while True` loops, `KeyboardInterrupt` and the outer `except` that restarts a cycle are timing and process control, and are left out.
- Console output is left out: banners, `_print_opportunity`, and `format_post`'s subreddit, vote and comment lines.
- Timestamps are the parameter `now`. The source reads the clock once per row (market_radar_v2.py:240) and once per `save_to_csv` call (market_radar_json.py:97); the model stamps every row written by one `RadarV2.Save` call, and every record of one `RadarJson.Scanner.ScanPage` call, with the same `now`. `format_post`'s clock reading (market_radar_legacy.py:57) is not part of the signal.
- Configuration from the environment is left out. v2 takes the provider, batch size and minimum score as constructor arguments; their defaults are `DefaultBatchSize` and `DefaultMinScore`.
- `_setup_client`'s errors for an unknown provider or a missing package are left out, and so is `sys.exit` in `main`.
- market_radar.py and market_radar_legacy.py read `REDDIT_CLIENT_ID`, `REDDIT_CLIENT_SECRET` and `REDDIT_USER_AGENT` but never define them. In the model the credentials are parameters, and the `praw` client is assumed to exist.
- JSON numbers with a fraction are not modelled: a float score is out of scope.
- Unicode case folding is left out. `.lower()` is ASCII lower-casing.
- CSV quoting and encoding are left out. A row is the list of its cell values.
- RadarLegacy.ScanReddit: the list of trigger phrases is a parameter (the script passes `Keywords`), so the properties hold for any list.
- RadarV2.MarketRadar.AnalyzeBuffer: the buffer is not always cleared. The reset at market_radar_v2.py:376-377 is the last statement of `_analyze_buffer`. An exception inside the verdict loop (a non-dict verdict, an uncomparable score, a bad `post_id`) leaves the method before it, so the buffer is kept and nothing is saved. The model does the same.
- RadarV2.JudgeSpec: the index check has no lower bound. A negative `post_id` in `[-n, 0)` picks a slot counted from the end, as Python does, and one below `-n` raises `IndexError`.
- RadarJson.RowFor: written only for records holding a string permalink, which every record the loop builds does.
- RadarStream.ReportedOpportunityQualifies: the printed link has no `www.`, as in the script.
