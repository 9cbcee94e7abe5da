/**
 * The streaming radar (`scan_reddit`): each submission of the live stream
 * goes through a keyword screen, a length check and a Gemini analysis, and
 * the outcome is printed. Nothing is stored; an exception inside one
 * submission is reported and the stream goes on with the next.
 */
module RadarStream {
  import opened Wrappers
  import opened Text
  import opened Json
  import opened Feed

  /** `KEYWORDS`. */
  const Keywords: seq<string> := [
    "how do i", "alternative to", "pain in the ass", "hate when", "manual work", "too expensive", "wish there was"
  ]

  /** A submission whose body is shorter than this is skipped after the keyword screen. */
  const MinSelftext: nat := 20

  /** The score a verdict needs to be reported as an opportunity. */
  const PassingScore: int := 7

  /** The prefix of the printed link (this script leaves out `www.`). */
  const LinkBase: string := "https://reddit.com"

  /** The clean-up of the response text: every fence marker removed, then stripped. */
  function CleanReply(text: string): (r: string)
    ensures !Contains(r, Fence) && !Contains(r, JsonFence)
    ensures r == [] || (!IsSpace(r[0]) && !IsSpace(r[|r| - 1]))
    ensures !Contains(text, Fence) ==> r == Strip(text)
  {
    NoFenceAfterRemoval(text);
    StripKeepsAbsence(RemoveFences(text), Fence);
    StripKeepsAbsence(RemoveFences(text), JsonFence);
    UnfencedUnchanged(text);
    Strip(RemoveFences(text))
  }

  /**
   * The clean-up keeps the answer inside the fence: a backtick-free body
   * wrapped as "```json" + body + "```" comes out as the stripped body.
   */
  lemma CleanReplyUnwraps(body: string)
    requires NoBacktick(body)
    ensures CleanReply(JsonFence + body + Fence) == Strip(body)
  {
    FencedBodyKept(body);
  }

  /** A text without a fence marker passes fence removal unchanged. */
  lemma UnfencedUnchanged(text: string)
    ensures !Contains(text, Fence) ==> RemoveFences(text) == text
  {
    if !Contains(text, Fence) {
      if Contains(text, JsonFence) {
        assert JsonFence == Fence + "json";
        ContainsPrefix(text, Fence, "json");
      }
      ReplaceAbsent(text, JsonFence, "");
      ReplaceAbsent(text, Fence, "");
    }
  }

  /**
   * `analyze_with_ai`: with no API key (`None` or empty) nothing is sent and
   * the result is `None`; otherwise the cleaned answer parsed, or `None`
   * when the call raises or the text does not parse. The prompt template
   * around the text is not part of this model: `llm` receives the text.
   */
  function AnalyzeWithAi(apiKey: Option<string>, text: string, llm: string -> Reply,
                         parse: string -> Option<Value>): (r: Option<Value>)
    ensures (apiKey == None || apiKey == Some("")) ==> r == None
    ensures r.Some? ==> llm(text).Answered? && r == parse(CleanReply(llm(text).text))
    ensures apiKey.Some? && apiKey.value != "" && llm(text).Answered? ==> r == parse(CleanReply(llm(text).text))
    ensures llm(text).CallFailed? ==> r == None
  {
    if apiKey == None || apiKey == Some("") then None
    else
      match llm(text)
      case CallFailed => None
      case Answered(answer) => parse(CleanReply(answer))
  }

  /** What the stream loop prints for one submission. */
  datatype Report =
    | NoKeyword                      // nothing printed
    | TooShort                       // skipped with `continue`
    | NotFound                       // "no opportunity found"
    | LowScore(score: Value)
    | Opportunity(score: Value, link: string, analysis: map<string, Value>)
    | Failed                         // the per-submission handler caught an exception

  /** `submission.selftext or ""`. */
  function BodyOrEmpty(sub: Submission): string {
    match sub.selftext
    case None => ""
    case Some(t) => t
  }

  /**
   * The `try` body of the stream loop for one submission. A submission
   * without a body passes the keyword screen on its title alone and then
   * fails at the length check (`len(None)`). An opportunity needs a truthy
   * `is_opportunity` and a score of at least 7.
   */
  function Decide(sub: Submission, apiKey: Option<string>, llm: string -> Reply,
                  parse: string -> Option<Value>): Report
  {
    if !Screened(sub) then NoKeyword
    else Assess(sub, apiKey, llm, parse)
  }

  /** The keyword screen: `found_keywords` is not empty. */
  predicate Screened(sub: Submission) {
    FoundKeywords(Keywords, FullText(sub.title, BodyOrEmpty(sub))) != []
  }

  /** The rest of the `try` body, for a submission that passed the keyword screen. */
  function Assess(sub: Submission, apiKey: Option<string>, llm: string -> Reply,
                  parse: string -> Option<Value>): Report
  {
    match sub.selftext
    case None => Failed
    case Some(body) =>
      if |body| < MinSelftext then TooShort
      else
        Rate(AnalyzeWithAi(apiKey, sub.title + "\n" + body, llm, parse), LinkBase + sub.permalink)
  }

  /** The verdict tests on the analysis of a submission that passed both screens. */
  function Rate(analysis: Option<Value>, link: string): Report {
    match analysis
    case None => NotFound
    case Some(a) =>
      if !Truthy(a) then NotFound
      else if !a.Object? then Failed
      else if !Truthy(Get(a.fields, "is_opportunity", Null)) then NotFound
      else
        var score := Get(a.fields, "score", Int(0));
        match AtLeast(score, PassingScore)
        case Raised => Failed
        case Done(high) => if high then Opportunity(score, link, a.fields) else LowScore(score)
  }

  /**
   * An opportunity is only reported for a submission with a body of at
   * least 20 characters whose analysis has a truthy `is_opportunity` and a
   * score of at least 7; the printed link is the permalink behind
   * `https://reddit.com`. A low score is one the comparison with 7 rejects.
   */
  lemma ReportedOpportunityQualifies(sub: Submission, apiKey: Option<string>, llm: string -> Reply,
                                     parse: string -> Option<Value>)
    ensures var r := Decide(sub, apiKey, llm, parse);
      && (r.Opportunity? ==> && sub.selftext.Some? && |sub.selftext.value| >= MinSelftext
                               && AtLeast(r.score, PassingScore) == Done(true)
                               && Truthy(Get(r.analysis, "is_opportunity", Null))
                               && Get(r.analysis, "score", Int(0)) == r.score
                               && r.link == LinkBase + sub.permalink)
      && (r.LowScore? ==> AtLeast(r.score, PassingScore) == Done(false))
  {
  }

  /**
   * The `NoKeyword` report is given exactly to the submissions without a
   * trigger phrase in the lower-cased title and body (a missing body counts
   * as empty). Nothing at all is printed exactly for those and for the ones
   * whose body is under 20 characters, which `continue` skips before the
   * "examining" line.
   */
  lemma SilentIffScreenedOut(sub: Submission, apiKey: Option<string>, llm: string -> Reply,
                             parse: string -> Option<Value>)
    ensures Decide(sub, apiKey, llm, parse) == NoKeyword <==> !AnyKeyword(Keywords, FullText(sub.title, BodyOrEmpty(sub)))
    ensures Decide(sub, apiKey, llm, parse) in {NoKeyword, TooShort} <==>
      !AnyKeyword(Keywords, FullText(sub.title, BodyOrEmpty(sub)))
      || (sub.selftext.Some? && |sub.selftext.value| < MinSelftext)
  {
    AnyKeywordIffFound(Keywords, FullText(sub.title, BodyOrEmpty(sub)));
  }

  /** The verdict tests in both directions: an opportunity exactly for an approving analysis, a low score exactly for a rejected score. */
  lemma RateIffApproved(analysis: Option<Value>, link: string)
    ensures Rate(analysis, link).Opportunity? <==> analysis.Some? && Approves(analysis.value, PassingScore)
    ensures analysis.Some? && Approves(analysis.value, PassingScore) ==>
      Rate(analysis, link) == Opportunity(Get(analysis.value.fields, "score", Int(0)), link, analysis.value.fields)
    ensures Rate(analysis, link).LowScore? <==>
      analysis.Some? && analysis.value.Object? && Truthy(Get(analysis.value.fields, "is_opportunity", Null))
      && AtLeast(Get(analysis.value.fields, "score", Int(0)), PassingScore) == Done(false)
  {
    if analysis.Some? && analysis.value.Object? && Truthy(Get(analysis.value.fields, "is_opportunity", Null)) {
      assert "is_opportunity" in analysis.value.fields;
    }
  }

  /**
   * The acceptance rule in both directions: a submission is reported as an
   * opportunity exactly when it holds a trigger phrase, has a body of at
   * least 20 characters, and its analysis approves it (a dict with a truthy
   * `is_opportunity` and a score of at least 7); the report then carries
   * that score, the link and the analysis. It is reported as low-scoring
   * exactly when such an analysis has a score the comparison with 7 rejects.
   */
  lemma OpportunityIffApproved(sub: Submission, apiKey: Option<string>, llm: string -> Reply,
                               parse: string -> Option<Value>)
    ensures var screened := AnyKeyword(Keywords, FullText(sub.title, BodyOrEmpty(sub)))
                            && sub.selftext.Some? && |sub.selftext.value| >= MinSelftext;
      var a := AnalyzeWithAi(apiKey, sub.title + "\n" + BodyOrEmpty(sub), llm, parse);
      && (Decide(sub, apiKey, llm, parse).Opportunity? <==> screened && a.Some? && Approves(a.value, PassingScore))
      && (screened && a.Some? && Approves(a.value, PassingScore) ==>
            Decide(sub, apiKey, llm, parse)
              == Opportunity(Get(a.value.fields, "score", Int(0)), LinkBase + sub.permalink, a.value.fields))
      && (Decide(sub, apiKey, llm, parse).LowScore? <==>
            screened && a.Some? && a.value.Object? && Truthy(Get(a.value.fields, "is_opportunity", Null))
            && AtLeast(Get(a.value.fields, "score", Int(0)), PassingScore) == Done(false))
  {
    AnyKeywordIffFound(Keywords, FullText(sub.title, BodyOrEmpty(sub)));
    RateIffApproved(AnalyzeWithAi(apiKey, sub.title + "\n" + BodyOrEmpty(sub), llm, parse), LinkBase + sub.permalink);
  }

  /**
   * The model is consulted only for a submission that has a trigger phrase
   * and a body of at least 20 characters: for any other submission the
   * report is the same whatever the model answers.
   */
  lemma NoCallBeforeScreens(sub: Submission, apiKey: Option<string>,
                            llm1: string -> Reply, parse1: string -> Option<Value>,
                            llm2: string -> Reply, parse2: string -> Option<Value>)
    requires !AnyKeyword(Keywords, FullText(sub.title, BodyOrEmpty(sub))) || sub.selftext == None
             || |sub.selftext.value| < MinSelftext
    ensures Decide(sub, apiKey, llm1, parse1) == Decide(sub, apiKey, llm2, parse2)
    ensures Decide(sub, apiKey, llm1, parse1) in {NoKeyword, TooShort, Failed}
  {
    AnyKeywordIffFound(Keywords, FullText(sub.title, BodyOrEmpty(sub)));
  }

  /** Without an API key no submission is ever reported as an opportunity or as low-scoring. */
  lemma MissingKeyFindsNothing(sub: Submission, llm: string -> Reply, parse: string -> Option<Value>)
    ensures Decide(sub, None, llm, parse) in {NoKeyword, TooShort, NotFound, Failed}
    ensures Decide(sub, Some(""), llm, parse) in {NoKeyword, TooShort, NotFound, Failed}
  {
    AnyKeywordIffFound(Keywords, FullText(sub.title, BodyOrEmpty(sub)));
  }

  /**
   * The stream loop over the submissions it receives: each is decided on its
   * own, so a failure on one leaves the reports of all others unchanged.
   */
  method ScanStream(subs: seq<Submission>, apiKey: Option<string>, llm: string -> Reply,
                    parse: string -> Option<Value>) returns (reports: seq<Report>)
    ensures |reports| == |subs|
    ensures forall i :: 0 <= i < |subs| ==> reports[i] == Decide(subs[i], apiKey, llm, parse)
  {
    reports := [];
    var i := 0;
    while i < |subs|
      invariant 0 <= i <= |subs|
      invariant |reports| == i
      invariant forall k :: 0 <= k < i ==> reports[k] == Decide(subs[k], apiKey, llm, parse)
    {
      var report := Decide(subs[i], apiKey, llm, parse);
      reports := reports + [report];
      i := i + 1;
    }
  }
}
