/**
 * The JSON-feed radar (`scan_reddit_json`): every unseen post of a page is
 * counted; a post holding a trigger phrase is sent on its own to Gemini at
 * once, and a good verdict is appended to the CSV file straight away. There
 * is no batching and no minimum body length. The seen-id set is the
 * module-level `seen_posts`, modelled as the one field of `Scanner`.
 */
module RadarJson {
  import opened Wrappers
  import opened Text
  import opened Json
  import opened Feed
  import opened CsvSink

  /** `KEYWORDS`. */
  const Keywords: seq<string> := [
    "how do i", "alternative to", "looking for", "wish there was", "need a tool", "pain in the"
  ]

  /** The score a verdict needs (fixed in the code, not configurable). */
  const PassingScore: int := 7

  /** The field names of the `DictWriter` in `save_to_csv`. */
  const Columns: seq<string> := ["Tarih", "Puan", "Problem", "Fikir", "Hedef Kitle", "Link"]

  /** A verdict dict with the post's permalink added. */
  type Opportunity = map<string, Value>

  /**
   * `analyze_with_gemini`: the parsed answer, or `None` when the call
   * raises or the answer does not parse; it never raises itself. The
   * prompt template around the text is not part of this model: `llm`
   * receives the post text.
   */
  function AnalyzeWithGemini(text: string, llm: string -> Reply, parse: string -> Option<Value>): (r: Option<Value>)
    ensures llm(text).CallFailed? ==> r == None
    ensures r.Some? ==> llm(text).Answered? && parse(llm(text).text) == r
    ensures llm(text).Answered? ==> r == parse(llm(text).text)
  {
    match llm(text)
    case CallFailed => None
    case Answered(answer) => parse(answer)
  }

  /** `any(kw in text for kw in KEYWORDS)` on the lower-cased title and body. */
  predicate Mentions(p: Post) {
    AnyKeyword(Keywords, FullText(p.title, p.selftext))
  }

  /** What the loop body does with one unseen post. */
  datatype Verdict =
    | NoKeyword            // no trigger phrase: Gemini is not asked
    | NoAnalysis           // the analysis is `None` or otherwise falsy
    | Passed               // not an opportunity, or a score below 7
    | Found(record: Opportunity)
    | Fails                // an exception escapes to the outer handler

  /**
   * The keyword screen, the analysis and the verdict test for one unseen
   * post. A truthy answer that is not a dict, or a score that cannot be
   * compared with 7, raises.
   */
  function Examine(p: Post, llm: string -> Reply, parse: string -> Option<Value>): Verdict {
    if !Mentions(p) then NoKeyword
    else Judge(p, AnalyzeWithGemini(p.title + "\n" + p.selftext, llm, parse))
  }

  /** The verdict tests on the analysis of a post that passed the keyword screen. */
  function Judge(p: Post, analysis: Option<Value>): Verdict {
    match analysis
    case None => NoAnalysis
    case Some(a) =>
      if !Truthy(a) then NoAnalysis
      else if !a.Object? then Fails
      else
        var m := a.fields;
        var score := Get(m, "score", Int(0));
        if !Truthy(Get(m, "is_opportunity", Null)) then Passed
        else
          match AtLeast(score, PassingScore)
          case Raised => Fails
          case Done(high) => if high then Found(m["permalink" := Str(p.permalink)]) else Passed
  }

  /**
   * Gemini is asked only about a post holding a trigger phrase. A found
   * record is the verdict with `"permalink"` set to the post's permalink,
   * and is only produced for a truthy `is_opportunity` and a score of at
   * least 7; a record is found, or the body raises, only on an analysis.
   */
  lemma ExamineSpec(p: Post, llm: string -> Reply, parse: string -> Option<Value>)
    ensures var r := Examine(p, llm, parse);
      && (!Mentions(p) <==> r == NoKeyword)
      && (r.Found? ==> && Truthy(Get(r.record, "is_opportunity", Null))
                       && AtLeast(Get(r.record, "score", Int(0)), PassingScore) == Done(true)
                       && Get(r.record, "permalink", Null) == Str(p.permalink))
      && (r.Found? || r.Fails? ==> AnalyzeWithGemini(p.title + "\n" + p.selftext, llm, parse).Some?)
  {
  }

  /**
   * The converse of `ExamineSpec`: a record is found exactly for a post
   * holding a trigger phrase whose analysis approves it (a dict with a
   * truthy `is_opportunity` and a score of at least 7), and it is that
   * verdict with the post's permalink. The body raises exactly when the
   * analysis is truthy but not a dict, or when its score cannot be compared
   * with 7 after a truthy `is_opportunity`.
   */
  lemma ExamineFindsIff(p: Post, llm: string -> Reply, parse: string -> Option<Value>)
    ensures var a := AnalyzeWithGemini(p.title + "\n" + p.selftext, llm, parse);
      && (Examine(p, llm, parse).Found? <==> Mentions(p) && a.Some? && Approves(a.value, PassingScore))
      && (Mentions(p) && a.Some? && Approves(a.value, PassingScore) ==>
            Examine(p, llm, parse) == Found(a.value.fields["permalink" := Str(p.permalink)]))
      && (Examine(p, llm, parse).Fails? <==>
            Mentions(p) && a.Some? && Truthy(a.value)
            && (!a.value.Object?
                || (Truthy(Get(a.value.fields, "is_opportunity", Null))
                    && AtLeast(Get(a.value.fields, "score", Int(0)), PassingScore).Raised?)))
  {
    var a := AnalyzeWithGemini(p.title + "\n" + p.selftext, llm, parse);
    if a.Some? && Approves(a.value, PassingScore) {
      ApprovedIsTruthy(a.value, PassingScore);
    }
  }

  /** The state of one pass over a page: seen ids, new-post count, records saved, and whether it raised. */
  datatype Scan = Scan(seen: set<string>, newCount: nat, found: seq<Opportunity>, raised: bool)

  /** One iteration of the `for post in posts` loop, given the verdict on the post; once an exception escaped, nothing more happens. */
  function Apply(s: Scan, p: Post, v: Verdict): Scan {
    if s.raised || p.id in s.seen then s
    else
      var counted := s.(seen := s.seen + {p.id}, newCount := s.newCount + 1);
      match v
      case Fails => counted.(raised := true)
      case Found(record) => counted.(found := counted.found + [record])
      case _ => counted
  }

  function Step(s: Scan, p: Post, llm: string -> Reply, parse: string -> Option<Value>): Scan {
    Apply(s, p, Examine(p, llm, parse))
  }

  /** The loop over a whole page. */
  function Run(s: Scan, page: seq<Post>, llm: string -> Reply, parse: string -> Option<Value>): Scan
    decreases |page|
  {
    if page == [] then s else Step(Run(s, page[..|page| - 1], llm, parse), page[|page| - 1], llm, parse)
  }

  /**
   * The count a pass reports is the number of ids it saw for the first
   * time (every unseen post counts, whether or not it holds a phrase); ids
   * are only ever added, and all of the page's ids are seen unless the pass
   * raised. A pass that starts raised changes nothing.
   */
  lemma {:induction false} RunTracksSeen(s: Scan, page: seq<Post>, llm: string -> Reply, parse: string -> Option<Value>)
    ensures var r := Run(s, page, llm, parse);
      && s.seen <= r.seen <= s.seen + IdsOf(page)
      && r.newCount == s.newCount + |r.seen - s.seen|
      && (!r.raised ==> r.seen == s.seen + IdsOf(page))
      && (s.raised ==> r == s)
    decreases |page|
  {
    if page != [] {
      var n := |page| - 1;
      var p := page[n];
      var mid := Run(s, page[..n], llm, parse);
      RunTracksSeen(s, page[..n], llm, parse);
      IdsOfSnoc(page);
      ApplyTracksSeen(s.seen, s.newCount, mid, p, Examine(p, llm, parse));
    }
  }

  /** One iteration, whatever the verdict, keeps the count equal to the number of ids added since `start`. */
  lemma ApplyTracksSeen(start: set<string>, startCount: nat, mid: Scan, p: Post, v: Verdict)
    requires start <= mid.seen && mid.newCount == startCount + |mid.seen - start|
    ensures var r := Apply(mid, p, v);
      && mid.seen <= r.seen <= mid.seen + {p.id}
      && r.newCount == startCount + |r.seen - start|
      && (!r.raised ==> !mid.raised && r.seen == mid.seen + {p.id})
      && (mid.raised ==> r == mid)
  {
    if !mid.raised && p.id !in mid.seen {
      assert (mid.seen + {p.id}) - start == (mid.seen - start) + {p.id};
    }
  }

  /**
   * Records are saved in feed order and never taken back; each new one
   * qualifies (truthy `is_opportunity`, score at least 7) and carries the
   * permalink of a post on the page.
   */
  lemma {:induction false} RunSavesQualified(s: Scan, page: seq<Post>, llm: string -> Reply, parse: string -> Option<Value>)
    ensures var r := Run(s, page, llm, parse);
      && |s.found| <= |r.found|
      && r.found[..|s.found|] == s.found
      && forall k :: |s.found| <= k < |r.found| ==>
           && Truthy(Get(r.found[k], "is_opportunity", Null))
           && AtLeast(Get(r.found[k], "score", Int(0)), PassingScore) == Done(true)
           && exists j :: 0 <= j < |page| && Get(r.found[k], "permalink", Null) == Str(page[j].permalink)
    decreases |page|
  {
    if page != [] {
      var n := |page| - 1;
      var mid := Run(s, page[..n], llm, parse);
      var v := Examine(page[n], llm, parse);
      RunSavesQualified(s, page[..n], llm, parse);
      ExamineSpec(page[n], llm, parse);
      ApplyExtendsFound(mid, page[n], v);
      var r := Run(s, page, llm, parse);
      forall k | |s.found| <= k < |mid.found|
        ensures exists j :: 0 <= j < |page| && Get(mid.found[k], "permalink", Null) == Str(page[j].permalink)
      {
        var j :| 0 <= j < n && Get(mid.found[k], "permalink", Null) == Str(page[..n][j].permalink);
        assert page[..n][j] == page[j];
      }
      if r.found != mid.found {
        assert Get(r.found[|mid.found|], "permalink", Null) == Str(page[n].permalink);
      }
    }
  }

  /** Post `i` is a first sighting on which the loop body raises. */
  predicate RaisesAt(seen: set<string>, page: seq<Post>, i: int, llm: string -> Reply, parse: string -> Option<Value>)
    requires 0 <= i < |page|
  {
    FirstSighting(seen, page, i) && Examine(page[i], llm, parse).Fails?
  }

  /** The records of the page's first sightings whose verdict is a found record, in feed order. */
  function FoundIn(seen: set<string>, page: seq<Post>, llm: string -> Reply, parse: string -> Option<Value>): seq<Opportunity>
    decreases |page|
  {
    if page == [] then []
    else
      var i := |page| - 1;
      var v := Examine(page[i], llm, parse);
      FoundIn(seen, page[..i], llm, parse) + (if FirstSighting(seen, page, i) && v.Found? then [v.record] else [])
  }

  /**
   * A pass on which no first sighting raises saves exactly the found
   * records of the page's first sightings, in feed order: no qualifying
   * post is skipped.
   */
  lemma {:induction false} RunFindsEvery(s: Scan, page: seq<Post>, llm: string -> Reply, parse: string -> Option<Value>)
    requires !s.raised
    requires forall i :: 0 <= i < |page| ==> !RaisesAt(s.seen, page, i, llm, parse)
    ensures !Run(s, page, llm, parse).raised
    ensures Run(s, page, llm, parse).found == s.found + FoundIn(s.seen, page, llm, parse)
    decreases |page|
  {
    if page != [] {
      var n := |page| - 1;
      var init := page[..n];
      forall i | 0 <= i < n ensures !RaisesAt(s.seen, init, i, llm, parse) {
        FirstSightingPrefix(s.seen, page, n, i);
        assert init[i] == page[i];
        assert !RaisesAt(s.seen, page, i, llm, parse);
      }
      RunFindsEvery(s, init, llm, parse);
      RunTracksSeen(s, init, llm, parse);
      var mid := Run(s, init, llm, parse);
      var v := Examine(page[n], llm, parse);
      assert Run(s, page, llm, parse) == Apply(mid, page[n], v);
      assert page[..n] == init;
      assert !RaisesAt(s.seen, page, n, llm, parse);
      ApplyOnSighting(mid, page[n], v, FirstSighting(s.seen, page, n));
    }
  }

  /** One iteration of a pass that has not raised, on a post whose verdict does not raise if it is new. */
  lemma ApplyOnSighting(mid: Scan, p: Post, v: Verdict, first: bool)
    requires !mid.raised
    requires first <==> p.id !in mid.seen
    requires first ==> !v.Fails?
    ensures !Apply(mid, p, v).raised
    ensures Apply(mid, p, v).found == mid.found + (if first && v.Found? then [v.record] else [])
  {
  }

  /**
   * At the first first sighting that raises, the pass stops: it is marked
   * raised and holds exactly the found records of the first sightings
   * before that post.
   */
  lemma RunRaisesAtFirstFailure(s: Scan, page: seq<Post>, i: nat, llm: string -> Reply, parse: string -> Option<Value>)
    requires !s.raised && i < |page| && RaisesAt(s.seen, page, i, llm, parse)
    requires forall j :: 0 <= j < i ==> !RaisesAt(s.seen, page, j, llm, parse)
    ensures Run(s, page, llm, parse).raised
    ensures Run(s, page, llm, parse).found == s.found + FoundIn(s.seen, page[..i], llm, parse)
  {
    var init := page[..i];
    forall j | 0 <= j < i ensures !RaisesAt(s.seen, init, j, llm, parse) {
      FirstSightingPrefix(s.seen, page, i, j);
      assert init[j] == page[j];
      assert !RaisesAt(s.seen, page, j, llm, parse);
    }
    RunFindsEvery(s, init, llm, parse);
    RunTracksSeen(s, init, llm, parse);
    RunSnoc(s, page, i, llm, parse);
    RunStopsOnceRaised(s, page, i + 1, llm, parse);
  }

  /** One iteration keeps the records found so far and adds at most the one its verdict found. */
  lemma ApplyExtendsFound(mid: Scan, p: Post, v: Verdict)
    ensures var r := Apply(mid, p, v);
      r.found == mid.found || (v.Found? && r.found == mid.found + [v.record])
  {
  }

  /** One more post of the page is one more iteration. */
  lemma RunSnoc(s: Scan, page: seq<Post>, i: nat, llm: string -> Reply, parse: string -> Option<Value>)
    requires i < |page|
    ensures Run(s, page[..i + 1], llm, parse) == Apply(Run(s, page[..i], llm, parse), page[i], Examine(page[i], llm, parse))
  {
    assert page[..i + 1][..i] == page[..i];
  }

  /** After the loop raised on a prefix of the page, the rest of the page is skipped. */
  lemma {:induction false} RunStopsOnceRaised(s: Scan, page: seq<Post>, i: nat, llm: string -> Reply, parse: string -> Option<Value>)
    requires i <= |page|
    requires Run(s, page[..i], llm, parse).raised
    ensures Run(s, page, llm, parse) == Run(s, page[..i], llm, parse)
    decreases |page| - i
  {
    if i < |page| {
      assert page[..i + 1][..i] == page[..i];
      RunStopsOnceRaised(s, page, i + 1, llm, parse);
    } else {
      assert page[..i] == page;
    }
  }

  /** The row `save_to_csv` writes; absent fields give empty cells, the link gets the site prefix. */
  function RowFor(data: Opportunity, now: string): seq<Value>
    requires "permalink" in data && data["permalink"].Str?
  {
    [ Str(now),
      Get(data, "score", Null),
      Get(data, "pain_point", Null),
      Get(data, "suggested_solution", Null),
      Get(data, "target_audience", Null),
      Str(RedditBase + data["permalink"].s) ]
  }

  function RowsFor(records: seq<Opportunity>, now: string): (rows: seq<seq<Value>>)
    requires forall k :: 0 <= k < |records| ==> "permalink" in records[k] && records[k]["permalink"].Str?
    ensures |rows| == |records|
    ensures forall k :: 0 <= k < |records| ==> rows[k] == RowFor(records[k], now)
  {
    seq(|records|, k requires 0 <= k < |records| => RowFor(records[k], now))
  }

  /** `save_to_csv`: opens the file for appending, writes the header iff it was missing, then one row. */
  method SaveToCsv(out: CsvFile, data: Opportunity, now: string)
    requires out.Valid()
    requires "permalink" in data && data["permalink"].Str?
    modifies out
    ensures out.Valid() && out.present
    ensures out.lines == Appended(old(out.present), old(out.lines), Columns, [RowFor(data, now)])
  {
    var fileExists := out.present;
    out.OpenForAppend();
    if !fileExists {
      out.WriteHeader(Columns);
    }
    out.WriteRecord(RowFor(data, now));
  }

  /** Every record of a pass holds a string permalink, so it can be written. */
  predicate Writable(records: seq<Opportunity>) {
    forall k :: 0 <= k < |records| ==> "permalink" in records[k] && records[k]["permalink"].Str?
  }

  /** The file (exists, rows) after `save_to_csv` ran once per record, in order, starting from `(present, lines)`. */
  function FileAfter(present: bool, lines: seq<Line>, records: seq<Opportunity>, now: string): (bool, seq<Line>)
    requires Writable(records)
    decreases |records|
  {
    if records == [] then (present, lines)
    else
      var before := FileAfter(present, lines, records[..|records| - 1], now);
      (true, Appended(before.0, before.1, Columns, [RowFor(records[|records| - 1], now)]))
  }

  /** One more `save_to_csv` call extends the file by one row, after a header only if the file was still missing. */
  lemma FileAfterSnoc(present: bool, lines: seq<Line>, records: seq<Opportunity>, record: Opportunity, now: string)
    requires Writable(records) && "permalink" in record && record["permalink"].Str?
    ensures Writable(records + [record])
    ensures var before := FileAfter(present, lines, records, now);
      FileAfter(present, lines, records + [record], now) == (true, Appended(before.0, before.1, Columns, [RowFor(record, now)]))
  {
    assert (records + [record])[..|records|] == records;
  }

  /**
   * However many records a pass saves, the file gains the header at most
   * once, first and only if it was missing, followed by one row per record
   * in the order found; with no record the file is left alone.
   */
  lemma {:induction false} FileAfterClosedForm(present: bool, lines: seq<Line>, records: seq<Opportunity>, now: string)
    requires Writable(records)
    ensures FileAfter(present, lines, records, now)
         == if records == [] then (present, lines) else (true, Appended(present, lines, Columns, RowsFor(records, now)))
    decreases |records|
  {
    if records != [] {
      var n := |records| - 1;
      var init := records[..n];
      FileAfterClosedForm(present, lines, init, now);
      assert RowsFor(records, now) == RowsFor(init, now) + [RowFor(records[n], now)];
      if init != [] {
        AppendedTwice(present, lines, Columns, RowsFor(init, now), [RowFor(records[n], now)]);
      } else {
        assert RowsFor(records, now) == [RowFor(records[n], now)];
      }
    }
  }

  /** The module-level `seen_posts` set. */
  class Scanner {
    var seenPosts: set<string>

    constructor ()
      ensures seenPosts == {}
    {
      seenPosts := {};
    }

    /**
     * One iteration of the `for post in posts` loop on a pass in state
     * `before` (not yet raised): an unseen post is recorded and counted,
     * then examined, and a found record is written with `save_to_csv` at
     * once. The pass started from the file `(present0, lines0)`.
     */
    method Visit(post: Post, out: CsvFile, llm: string -> Reply, parse: string -> Option<Value>, now: string,
                 newCount: nat, ghost found: seq<Opportunity>, ghost present0: bool, ghost lines0: seq<Line>)
      returns (count: nat, raised: bool, ghost after: Scan)
      requires out.Valid() && Writable(found)
      requires (out.present, out.lines) == FileAfter(present0, lines0, found, now)
      modifies this, out
      ensures after == Apply(Scan(old(seenPosts), newCount, found, false), post, Examine(post, llm, parse))
      ensures seenPosts == after.seen && count == after.newCount && raised == after.raised
      ensures Writable(after.found) && out.Valid()
      ensures (out.present, out.lines) == FileAfter(present0, lines0, after.found, now)
    {
      count, raised, after := newCount, false, Scan(seenPosts, newCount, found, false);
      if post.id in seenPosts {
        return;
      }
      seenPosts := seenPosts + {post.id};
      count := count + 1;
      var verdict := Examine(post, llm, parse);
      match verdict {
        case Fails =>
          raised := true;
          after := Scan(seenPosts, count, found, true);
        case Found(record) =>
          ExamineSpec(post, llm, parse);
          SaveToCsv(out, record, now);
          FileAfterSnoc(present0, lines0, found, record, now);
          after := Scan(seenPosts, count, found + [record], false);
        case _ =>
          after := Scan(seenPosts, count, found, false);
      }
    }

    /**
     * One fetched page of `scan_reddit_json`'s loop. The result follows
     * `Run` from the current seen set; every record found is written as
     * soon as it is found, so the file ends with the header (if it was
     * missing and a record was found) and one row per record.
     */
    method ScanPage(page: seq<Post>, out: CsvFile, llm: string -> Reply, parse: string -> Option<Value>, now: string)
      returns (newCount: nat, raised: bool)
      requires out.Valid()
      modifies this, out
      ensures var r := Run(Scan(old(seenPosts), 0, [], false), page, llm, parse);
        && seenPosts == r.seen && newCount == r.newCount && raised == r.raised
        && Writable(r.found)
        && out.Valid()
        && (out.present, out.lines) == FileAfter(old(out.present), old(out.lines), r.found, now)
    {
      ghost var start := Scan(seenPosts, 0, [], false);
      ghost var found: seq<Opportunity> := [];
      newCount := 0;
      raised := false;
      var i := 0;
      while i < |page|
        invariant 0 <= i <= |page|
        invariant Run(start, page[..i], llm, parse) == Scan(seenPosts, newCount, found, false)
        invariant Writable(found)
        invariant out.Valid()
        invariant (out.present, out.lines) == FileAfter(old(out.present), old(out.lines), found, now)
      {
        RunSnoc(start, page, i, llm, parse);
        ghost var after;
        newCount, raised, after := Visit(page[i], out, llm, parse, now, newCount, found, old(out.present), old(out.lines));
        found := after.found;
        if raised {
          RunStopsOnceRaised(start, page, i + 1, llm, parse);
          return;
        }
        i := i + 1;
      }
      assert page[..i] == page;
    }
  }
}
