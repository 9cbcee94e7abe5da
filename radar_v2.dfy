/**
 * The v2 radar (`MarketRadar` with `CSVWriter`): every page of new posts is
 * screened one post at a time into `post_buffer`; once a whole page has
 * left at least `BATCH_SIZE` posts in the buffer, the buffer is analysed in
 * one request, the verdicts are matched back to buffered posts, the good
 * ones are appended to the CSV file and the buffer is emptied.
 */
module RadarV2 {
  import opened Wrappers
  import opened Text
  import opened Json
  import opened Feed
  import opened CsvSink
  import opened AnalyzerV2

  /** `Config.KEYWORDS`. */
  const Keywords: seq<string> := [
    "how do i", "alternative to", "pain", "hate", "manual",
    "expensive", "looking for", "wish", "help", "need tool",
    "idea", "frustrated", "recommend", "suggestion", "advice"
  ]

  /**
   * The defaults of `Config.BATCH_SIZE` and `Config.MIN_SCORE`, recorded
   * for reference: the radar takes both as constructor arguments, so every
   * property holds for any configured values.
   */
  const DefaultBatchSize: int := 5
  const DefaultMinScore: int := 7

  /** Posts whose `selftext` is shorter than this are never buffered. */
  const MinSelftext: nat := 30

  /** `CSVWriter.FIELDNAMES`. */
  const Columns: seq<string> := ["Tarih", "Puan", "Problem", "Fikir", "Hedef", "Link"]

  /** The cell written for a field the verdict does not have. */
  const NotAvailable: Value := Str("N/A")

  // ---------------------------------------------------------------------------
  // Screening one post (`_process_post`)
  // ---------------------------------------------------------------------------

  /** `any(kw in text for kw in self.KEYWORDS)` on the lower-cased title and body. */
  predicate Mentions(p: Post) {
    AnyKeyword(Keywords, FullText(p.title, p.selftext))
  }

  /** The screen an unseen post must pass to be buffered: a long enough body and a trigger phrase. */
  predicate Admits(p: Post) {
    |p.selftext| >= MinSelftext && Mentions(p)
  }

  /** The buffer entry for a post: title and body on two lines, and the full link. */
  function EntryFor(p: Post): BufferEntry {
    BufferEntry(p.title + "\n" + p.selftext, RedditBase + p.permalink)
  }

  /** The radar's mutable state: the ids seen so far and the posts waiting for analysis. */
  datatype State = State(seen: set<string>, buffer: seq<BufferEntry>)

  /**
   * `_process_post` on the abstract state: the new state and the return
   * value. The id is marked seen before any screening, whatever follows;
   * the post is appended, and `true` returned, exactly when it was unseen
   * and passes the screen; entries already buffered never change.
   */
  function Process(s: State, p: Post): (r: (State, bool))
    ensures r.0.seen == s.seen + {p.id}
    ensures r.1 <==> p.id !in s.seen && Admits(p)
    ensures r.1 <==> |r.0.buffer| == |s.buffer| + 1
    ensures r.0.buffer == if r.1 then s.buffer + [EntryFor(p)] else s.buffer
  {
    if p.id in s.seen then (s, false)
    else
      var marked := s.(seen := s.seen + {p.id});
      if |p.selftext| < MinSelftext then (marked, false)
      else if Mentions(p) then
        (marked.(buffer := marked.buffer + [EntryFor(p)]), true)
      else (marked, false)
  }

  /** A post whose body is under 30 characters is never buffered, whatever phrases it holds. */
  lemma ShortPostNeverBuffered(s: State, p: Post)
    requires |p.selftext| < MinSelftext
    ensures !Process(s, p).1 && Process(s, p).0.buffer == s.buffer
  {
  }

  /** Processing a page: `_process_post` on each post in feed order, counting the buffered ones. */
  function ProcessPage(s: State, page: seq<Post>): (State, nat)
    decreases |page|
  {
    if page == [] then (s, 0)
    else
      var (mid, n) := ProcessPage(s, page[..|page| - 1]);
      var (next, buffered) := Process(mid, page[|page| - 1]);
      (next, if buffered then n + 1 else n)
  }

  /** The entries a page contributes, described by position: first sightings that pass the screen. */
  function NewEntries(seen: set<string>, page: seq<Post>): seq<BufferEntry>
    decreases |page|
  {
    if page == [] then []
    else
      var i := |page| - 1;
      NewEntries(seen, page[..i]) + (if FirstSighting(seen, page, i) && Admits(page[i]) then [EntryFor(page[i])] else [])
  }

  /**
   * After a page, every id on it is seen, and the buffer has grown by
   * exactly the entries of the page's first sightings that pass the screen,
   * in feed order; the count `_scan_cycle` reports is their number. An id
   * already seen never re-enters the buffer.
   */
  lemma {:induction false} PageOutcome(s: State, page: seq<Post>)
    ensures ProcessPage(s, page).0.seen == s.seen + IdsOf(page)
    ensures ProcessPage(s, page).0.buffer == s.buffer + NewEntries(s.seen, page)
    ensures ProcessPage(s, page).1 == |NewEntries(s.seen, page)|
    decreases |page|
  {
    if page != [] {
      var i := |page| - 1;
      PageOutcome(s, page[..i]);
      IdsOfSnoc(page);
    }
  }

  // ---------------------------------------------------------------------------
  // Matching verdicts back to the buffer (`_analyze_buffer`)
  // ---------------------------------------------------------------------------

  /** A verdict dict with `"permalink"` set to the link of the buffered post it names. */
  type Opportunity = map<string, Value>

  /** What the loop body of `_analyze_buffer` does with one verdict. */
  datatype Judgement = Dropped | Kept(opp: Opportunity) | Fails

  /** The buffer slot Python's `buffer[k]` reads: a negative index counts from the end. */
  function Slot(k: int, n: nat): int {
    if k >= 0 then k else n + k
  }

  /**
   * One verdict: kept when `is_opportunity` is truthy, the score (0 when
   * missing) is at least `minScore`, and `post_id` is present and below the
   * buffer length. The check has no lower bound: `-n <= post_id < 0` picks
   * a slot counted from the end, below `-n` the lookup raises. A verdict that
   * is not a dict, or whose score or id is not a number, raises too.
   */
  function Judge(res: Value, buffer: seq<BufferEntry>, minScore: int): Judgement
  {
    if !res.Object? then Fails
    else if !Truthy(Get(res.fields, "is_opportunity", Null)) then Dropped
    else
      match AtLeast(Get(res.fields, "score", Int(0)), minScore)
      case Raised => Fails
      case Done(high) => if high then Attach(res.fields, buffer) else Dropped
  }

  /** The `post_id` part of the loop body, for a verdict that passed the opportunity and score tests. */
  function Attach(m: map<string, Value>, buffer: seq<BufferEntry>): Judgement {
    var pid := Get(m, "post_id", Null);
    if pid.Null? then Dropped
    else
      match AsInt(pid)
      case Raised => Fails
      case Done(k) =>
        if k >= |buffer| then Dropped
        else if k < -|buffer| then Fails
        else Kept(m["permalink" := Str(buffer[Slot(k, |buffer|)].permalink)])
  }

  /**
   * A kept verdict is a dict with a truthy `is_opportunity`, a score of at
   * least `minScore` and an integer `post_id` in `[-n, n)`; the opportunity
   * is the verdict with `"permalink"` set to the link of the post in that
   * slot. A dict verdict with a falsy `is_opportunity` is dropped.
   */
  lemma JudgeSpec(res: Value, buffer: seq<BufferEntry>, minScore: int)
    ensures var r := Judge(res, buffer, minScore);
      && (r.Kept? ==> res.Object?)
      && (r.Kept? ==> Truthy(Get(r.opp, "is_opportunity", Null)))
      && (r.Kept? ==> AtLeast(Get(r.opp, "score", Int(0)), minScore) == Done(true))
      && (r.Kept? ==>
           && AsInt(Get(r.opp, "post_id", Null)).Done?
           && var k := AsInt(Get(r.opp, "post_id", Null)).value;
           && -|buffer| <= k < |buffer|
           && r.opp == res.fields["permalink" := Str(buffer[Slot(k, |buffer|)].permalink)])
      && (res.Object? && !Truthy(Get(res.fields, "is_opportunity", Null)) ==> r.Dropped?)
  {
  }

  /** A verdict naming post `-1` is attached to the last buffered post rather than dropped. */
  lemma NegativePostIdCountsFromEnd(m: map<string, Value>, buffer: seq<BufferEntry>, minScore: int)
    requires buffer != []
    requires Get(m, "is_opportunity", Null) == Bool(true)
    requires Get(m, "score", Int(0)) == Int(minScore)
    requires Get(m, "post_id", Null) == Int(-1)
    ensures Judge(Object(m), buffer, minScore) == Kept(m["permalink" := Str(buffer[|buffer| - 1].permalink)])
  {
  }

  /**
   * The converse of `JudgeSpec`, case by case. A verdict that passes the
   * loop's three tests (`is_opportunity` truthy, score at least `minScore`,
   * `post_id` present and below the buffer length) is kept, with the link of
   * the slot it names, whenever that slot exists; below `-n` it raises. A
   * low score, a missing `post_id` or one at or past the end drops the
   * verdict; a verdict that is not a dict, or whose score or `post_id` is
   * not a number, raises.
   */
  lemma JudgeCases(res: Value, buffer: seq<BufferEntry>, minScore: int)
    ensures Approves(res, minScore) ==>
      var pid := Get(res.fields, "post_id", Null);
      && (pid.Null? ==> Judge(res, buffer, minScore) == Dropped)
      && (AsInt(pid).Done? && AsInt(pid).value >= |buffer| ==> Judge(res, buffer, minScore) == Dropped)
      && (AsInt(pid).Done? && -|buffer| <= AsInt(pid).value < |buffer| ==>
            Judge(res, buffer, minScore)
              == Kept(res.fields["permalink" := Str(buffer[Slot(AsInt(pid).value, |buffer|)].permalink)]))
      && (AsInt(pid).Done? && AsInt(pid).value < -|buffer| ==> Judge(res, buffer, minScore) == Fails)
      && (!pid.Null? && AsInt(pid).Raised? ==> Judge(res, buffer, minScore) == Fails)
    ensures res.Object? && AtLeast(Get(res.fields, "score", Int(0)), minScore) == Done(false) ==>
      Judge(res, buffer, minScore) == Dropped
    ensures (res.Object? && Truthy(Get(res.fields, "is_opportunity", Null))
             && AtLeast(Get(res.fields, "score", Int(0)), minScore).Raised?) ==> Judge(res, buffer, minScore) == Fails
    ensures !res.Object? ==> Judge(res, buffer, minScore) == Fails
  {
  }

  /**
   * A verdict is kept exactly when it passes the three tests and its
   * `post_id` names an existing slot (from the end when negative).
   */
  lemma JudgeKeptIff(res: Value, buffer: seq<BufferEntry>, minScore: int)
    ensures Judge(res, buffer, minScore).Kept? <==>
      && Approves(res, minScore)
      && AsInt(Get(res.fields, "post_id", Null)).Done?
      && -|buffer| <= AsInt(Get(res.fields, "post_id", Null)).value < |buffer|
  {
    JudgeCases(res, buffer, minScore);
    JudgeSpec(res, buffer, minScore);
  }

  /** The loop of `_analyze_buffer` over all verdicts: the opportunities in verdict order, or the exception. */
  function Reconcile(items: seq<Value>, buffer: seq<BufferEntry>, minScore: int): Outcome<seq<Opportunity>>
    decreases |items|
  {
    if items == [] then Done([])
    else
      match Reconcile(items[..|items| - 1], buffer, minScore)
      case Raised => Raised
      case Done(opps) =>
        match Judge(items[|items| - 1], buffer, minScore)
        case Fails => Raised
        case Dropped => Done(opps)
        case Kept(o) => Done(opps + [o])
  }

  /** The positions of the elements `keep` accepts, in increasing order. */
  function Positions<T>(xs: seq<T>, keep: T -> bool): (idx: seq<nat>)
    ensures forall k :: 0 <= k < |idx| ==> idx[k] < |xs|
    decreases |xs|
  {
    if xs == [] then []
    else
      var n := |xs| - 1;
      if keep(xs[n]) then Positions(xs[..n], keep) + [n] else Positions(xs[..n], keep)
  }

  /** Every position listed holds an accepted element. */
  lemma {:induction false} PositionsAccepted<T>(xs: seq<T>, keep: T -> bool)
    ensures forall k :: 0 <= k < |Positions(xs, keep)| ==> keep(xs[Positions(xs, keep)[k]])
    decreases |xs|
  {
    if xs != [] {
      var n := |xs| - 1;
      var init := xs[..n];
      PositionsAccepted(init, keep);
      var front := Positions(init, keep);
      var idx := Positions(xs, keep);
      assert forall j :: 0 <= j < |front| ==> keep(init[front[j]]);
      forall k | 0 <= k < |idx| ensures keep(xs[idx[k]]) {
        if k < |front| {
          assert idx[k] == front[k] && init[front[k]] == xs[front[k]];
        } else {
          assert keep(xs[n]) && idx[k] == n;
        }
      }
    }
  }

  /** The positions are listed in increasing order, so none twice. */
  lemma {:induction false} PositionsIncrease<T>(xs: seq<T>, keep: T -> bool)
    ensures forall k, l :: 0 <= k < l < |Positions(xs, keep)| ==> Positions(xs, keep)[k] < Positions(xs, keep)[l]
    decreases |xs|
  {
    if xs != [] {
      var n := |xs| - 1;
      PositionsIncrease(xs[..n], keep);
      var front := Positions(xs[..n], keep);
      var idx := Positions(xs, keep);
      assert forall k, l :: 0 <= k < l < |front| ==> front[k] < front[l];
      forall k, l | 0 <= k < l < |idx| ensures idx[k] < idx[l] {
        assert idx[k] == front[k];
        if l < |front| {
          assert idx[l] == front[l];
        }
      }
    }
  }

  /** Every accepted element's position is listed. */
  lemma {:induction false} PositionsComplete<T>(xs: seq<T>, keep: T -> bool)
    ensures forall i :: 0 <= i < |xs| && keep(xs[i]) ==> i in Positions(xs, keep)
    decreases |xs|
  {
    if xs != [] {
      var n := |xs| - 1;
      var init := xs[..n];
      PositionsComplete(init, keep);
      var front := Positions(init, keep);
      var idx := Positions(xs, keep);
      assert forall i :: 0 <= i < n && keep(init[i]) ==> i in front;
      forall i | 0 <= i < |xs| && keep(xs[i]) ensures i in idx {
        if i < n {
          assert init[i] == xs[i];
          assert i in front;
        }
      }
    }
  }

  /** The positions of the verdicts that are kept. */
  function KeptIndices(items: seq<Value>, buffer: seq<BufferEntry>, minScore: int): seq<nat> {
    Positions(items, res => Judge(res, buffer, minScore).Kept?)
  }

  /** The kept positions are exactly the positions of kept verdicts, each listed once, in increasing order. */
  lemma KeptIndicesSpec(items: seq<Value>, buffer: seq<BufferEntry>, minScore: int)
    ensures var idx := KeptIndices(items, buffer, minScore);
      && (forall k :: 0 <= k < |idx| ==> idx[k] < |items| && Judge(items[idx[k]], buffer, minScore).Kept?)
      && (forall k, l :: 0 <= k < l < |idx| ==> idx[k] < idx[l])
      && (forall i :: 0 <= i < |items| && Judge(items[i], buffer, minScore).Kept? ==> i in idx)
  {
    var keep := res => Judge(res, buffer, minScore).Kept?;
    PositionsAccepted(items, keep);
    PositionsIncrease(items, keep);
    PositionsComplete(items, keep);
  }

  /**
   * When no verdict raises, the opportunities are exactly the kept verdicts
   * in the order the answer listed them (not buffer order): the k-th
   * opportunity comes from the k-th kept verdict.
   */
  lemma {:induction false} ReconcileSelects(items: seq<Value>, buffer: seq<BufferEntry>, minScore: int)
    requires Reconcile(items, buffer, minScore).Done?
    ensures var opps := Reconcile(items, buffer, minScore).value;
      var idx := KeptIndices(items, buffer, minScore);
      && |opps| == |idx|
      && forall k :: 0 <= k < |idx| ==> Judge(items[idx[k]], buffer, minScore) == Kept(opps[k])
    decreases |items|
  {
    if items != [] {
      var n := |items| - 1;
      ReconcileSelects(items[..n], buffer, minScore);
      var front := KeptIndices(items[..n], buffer, minScore);
      assert forall k :: 0 <= k < |front| ==> items[..n][front[k]] == items[front[k]];
    }
  }

  /**
   * No qualifying verdict is lost: when the loop does not raise, every
   * verdict that passes the three tests and names an existing slot is among
   * the opportunities, with that slot's link.
   */
  lemma ReconcileKeepsEveryApproved(items: seq<Value>, buffer: seq<BufferEntry>, minScore: int, i: nat)
    requires Reconcile(items, buffer, minScore).Done?
    requires i < |items| && Approves(items[i], minScore)
    requires AsInt(Get(items[i].fields, "post_id", Null)).Done?
    requires -|buffer| <= AsInt(Get(items[i].fields, "post_id", Null)).value < |buffer|
    ensures var k := AsInt(Get(items[i].fields, "post_id", Null)).value;
      items[i].fields["permalink" := Str(buffer[Slot(k, |buffer|)].permalink)] in Reconcile(items, buffer, minScore).value
  {
    JudgeCases(items[i], buffer, minScore);
    KeptIndicesSpec(items, buffer, minScore);
    ReconcileSelects(items, buffer, minScore);
    var idx := KeptIndices(items, buffer, minScore);
    var opps := Reconcile(items, buffer, minScore).value;
    var k :| 0 <= k < |idx| && idx[k] == i;
    assert Judge(items[i], buffer, minScore) == Kept(opps[k]);
  }

  /** The loop raises exactly when some verdict makes its body raise. */
  lemma {:induction false} ReconcileRaisesIff(items: seq<Value>, buffer: seq<BufferEntry>, minScore: int)
    ensures Reconcile(items, buffer, minScore).Raised? <==>
      exists i :: 0 <= i < |items| && Judge(items[i], buffer, minScore).Fails?
    decreases |items|
  {
    if items != [] {
      var n := |items| - 1;
      ReconcileRaisesIff(items[..n], buffer, minScore);
      assert forall i :: 0 <= i < n ==> items[..n][i] == items[i];
    }
  }

  /** Once the loop has raised on a prefix of the verdicts, the whole loop raises. */
  lemma {:induction false} ReconcileStaysRaised(items: seq<Value>, i: nat, buffer: seq<BufferEntry>, minScore: int)
    requires i <= |items|
    requires Reconcile(items[..i], buffer, minScore).Raised?
    ensures Reconcile(items, buffer, minScore).Raised?
    decreases |items| - i
  {
    if i < |items| {
      assert items[..i + 1][..i] == items[..i];
      ReconcileStaysRaised(items, i + 1, buffer, minScore);
    } else {
      assert items[..i] == items;
    }
  }

  /**
   * The `for res in results` loop of `_analyze_buffer`: each verdict is
   * judged in turn and a kept one appended; the first verdict that raises
   * ends the loop.
   */
  method ReconcileVerdicts(items: seq<Value>, buffer: seq<BufferEntry>, minScore: int)
    returns (outcome: Outcome<seq<Opportunity>>)
    ensures outcome == Reconcile(items, buffer, minScore)
  {
    var opportunities: seq<Opportunity> := [];
    var i := 0;
    while i < |items|
      invariant 0 <= i <= |items|
      invariant Reconcile(items[..i], buffer, minScore) == Done(opportunities)
    {
      assert items[..i + 1][..i] == items[..i];
      match Judge(items[i], buffer, minScore) {
        case Fails =>
          ReconcileStaysRaised(items, i + 1, buffer, minScore);
          return Raised;
        case Dropped =>
        case Kept(opp) =>
          opportunities := opportunities + [opp];
      }
      i := i + 1;
    }
    assert items[..i] == items;
    return Done(opportunities);
  }

  /** What `_analyze_buffer` gets from iterating the batch results: the opportunities, or the exception. */
  function Opportunities(results: Value, buffer: seq<BufferEntry>, minScore: int): Outcome<seq<Opportunity>> {
    match Iterate(results)
    case Raised => Raised
    case Done(items) => Reconcile(items, buffer, minScore)
  }

  // ---------------------------------------------------------------------------
  // Persisting (`CSVWriter.save`)
  // ---------------------------------------------------------------------------

  /** The row `CSVWriter.save` writes for one opportunity; absent fields read `N/A`. */
  function RowFor(opp: Opportunity, now: string): seq<Value> {
    [ Str(now),
      Get(opp, "score", NotAvailable),
      Get(opp, "pain_point", NotAvailable),
      Get(opp, "suggested_solution", NotAvailable),
      Get(opp, "target_audience", NotAvailable),
      Get(opp, "permalink", NotAvailable) ]
  }

  function RowsFor(opps: seq<Opportunity>, now: string): (rows: seq<seq<Value>>)
    ensures |rows| == |opps|
    ensures forall i :: 0 <= i < |opps| ==> rows[i] == RowFor(opps[i], now)
  {
    seq(|opps|, i requires 0 <= i < |opps| => RowFor(opps[i], now))
  }

  /**
   * `CSVWriter.save`: nothing happens for an empty list; otherwise the
   * header is written iff the file did not exist, then one row per
   * opportunity in order.
   */
  method Save(out: CsvFile, opportunities: seq<Opportunity>, now: string)
    requires out.Valid()
    modifies out
    ensures out.Valid()
    ensures opportunities == [] ==> out.present == old(out.present) && out.lines == old(out.lines)
    ensures opportunities != [] ==>
      out.present && out.lines == Appended(old(out.present), old(out.lines), Columns, RowsFor(opportunities, now))
  {
    if opportunities == [] {
      return;
    }
    var fileExists := out.present;
    out.OpenForAppend();
    if !fileExists {
      out.WriteHeader(Columns);
    }
    var i := 0;
    while i < |opportunities|
      invariant 0 <= i <= |opportunities|
      invariant out.Valid() && out.present
      invariant out.lines == Appended(fileExists, old(out.lines), Columns, RowsFor(opportunities[..i], now))
    {
      assert RowsFor(opportunities[..i + 1], now) == RowsFor(opportunities[..i], now) + [RowFor(opportunities[i], now)];
      RecordsAppend(RowsFor(opportunities[..i], now), [RowFor(opportunities[i], now)]);
      out.WriteRecord(RowFor(opportunities[i], now));
      i := i + 1;
    }
    assert opportunities[..i] == opportunities;
  }

  // ---------------------------------------------------------------------------
  // The radar object
  // ---------------------------------------------------------------------------

  /** How a scan cycle ended: buffer still filling, batch analysed, or the analysis raised. */
  datatype CycleOutcome = Waiting | Analysed(saved: seq<Opportunity>) | AnalysisRaised

  /** `MarketRadar`: the seen-id ledger and the post buffer. */
  class MarketRadar {
    const provider: Provider
    const batchSize: int
    const minScore: int
    var seenPosts: set<string>
    var postBuffer: seq<BufferEntry>

    function Snapshot(): State
      reads this
    {
      State(seenPosts, postBuffer)
    }

    constructor (provider: Provider, batchSize: int, minScore: int)
      ensures this.provider == provider && this.batchSize == batchSize && this.minScore == minScore
      ensures seenPosts == {} && postBuffer == []
    {
      this.provider := provider;
      this.batchSize := batchSize;
      this.minScore := minScore;
      seenPosts := {};
      postBuffer := [];
    }

    /** `_process_post`. */
    method ProcessPost(post: Post) returns (buffered: bool)
      modifies this
      ensures (Snapshot(), buffered) == Process(old(Snapshot()), post)
    {
      var pid := post.id;
      if pid in seenPosts {
        return false;
      }
      seenPosts := seenPosts + {pid};
      var fullText := FullText(post.title, post.selftext);
      if |post.selftext| < MinSelftext {
        return false;
      }
      if AnyKeyword(Keywords, fullText) {
        postBuffer := postBuffer + [EntryFor(post)];
        return true;
      }
      return false;
    }

    /**
     * `_analyze_buffer`. When the loop over the verdicts raises, the
     * exception leaves the method: nothing is saved and the buffer is kept.
     * Otherwise the opportunities are saved (when there are any) and the
     * buffer is emptied.
     */
    method AnalyzeBuffer(out: CsvFile, llm: Prompt -> Reply, parse: string -> Option<Value>, now: string)
      returns (outcome: Outcome<seq<Opportunity>>)
      requires out.Valid()
      modifies this, out
      ensures outcome == Opportunities(BatchResults(provider, old(postBuffer), minScore, llm, parse), old(postBuffer), minScore)
      ensures seenPosts == old(seenPosts)
      ensures postBuffer == if outcome.Done? then [] else old(postBuffer)
      ensures out.Valid()
      ensures if outcome.Done? && outcome.value != [] then
          out.present && out.lines == Appended(old(out.present), old(out.lines), Columns, RowsFor(outcome.value, now))
        else
          out.present == old(out.present) && out.lines == old(out.lines)
    {
      var buffer := postBuffer;
      var results := AnalyzeBatch(provider, buffer, minScore, llm, parse);
      var iteration := Iterate(results);
      if iteration.Raised? {
        return Raised;
      }
      var opportunities := ReconcileVerdicts(iteration.value, buffer, minScore);
      if opportunities.Raised? {
        return Raised;
      }
      Save(out, opportunities.value, now);
      postBuffer := [];
      outcome := opportunities;
    }

    /** The `for post in posts` loop of `_scan_cycle`: each post through `_process_post`, counting those buffered. */
    method ProcessPosts(page: seq<Post>) returns (newCount: nat)
      modifies this
      ensures (Snapshot(), newCount) == ProcessPage(old(Snapshot()), page)
    {
      newCount := 0;
      var i := 0;
      while i < |page|
        invariant 0 <= i <= |page|
        invariant (Snapshot(), newCount) == ProcessPage(old(Snapshot()), page[..i])
      {
        assert page[..i + 1][..i] == page[..i];
        var buffered := ProcessPost(page[i]);
        if buffered {
          newCount := newCount + 1;
        }
        i := i + 1;
      }
      assert page[..i] == page;
    }

    /**
     * `_scan_cycle` after a successful fetch of `page`: every post is
     * processed first; only then, if the buffer holds at least `batchSize`
     * posts (possibly more), it is analysed. A shorter buffer carries over.
     */
    method ScanCycle(page: seq<Post>, out: CsvFile, llm: Prompt -> Reply, parse: string -> Option<Value>, now: string)
      returns (newCount: nat, outcome: CycleOutcome)
      requires out.Valid()
      modifies this, out
      ensures var (mid, n) := ProcessPage(old(Snapshot()), page);
        && newCount == n
        && seenPosts == mid.seen
        && out.Valid()
        && (|mid.buffer| < batchSize ==>
              outcome == Waiting && postBuffer == mid.buffer
              && out.present == old(out.present) && out.lines == old(out.lines))
        && (|mid.buffer| >= batchSize ==>
              var o := Opportunities(BatchResults(provider, mid.buffer, minScore, llm, parse), mid.buffer, minScore);
              && outcome == (if o.Raised? then AnalysisRaised else Analysed(o.value))
              && postBuffer == (if o.Raised? then mid.buffer else [])
              && if o.Done? && o.value != [] then
                   out.present && out.lines == Appended(old(out.present), old(out.lines), Columns, RowsFor(o.value, now))
                 else
                   out.present == old(out.present) && out.lines == old(out.lines))
    {
      newCount := ProcessPosts(page);
      if |postBuffer| >= batchSize {
        var o := AnalyzeBuffer(out, llm, parse, now);
        outcome := if o.Raised? then AnalysisRaised else Analysed(o.value);
      } else {
        outcome := Waiting;
      }
    }
  }
}
