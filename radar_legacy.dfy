/**
 * The first radar (`market_radar_legacy.py`): no AI, no file. It checks the
 * Reddit credentials, then lists every submission holding a trigger phrase
 * and counts them, either over the latest 100 submissions (snapshot mode)
 * or over the live stream.
 */
module RadarLegacy {
  import opened Wrappers
  import opened Text
  import opened Feed

  /**
   * `KEYWORDS`, the list the script screens for. The scan below takes the
   * list as a parameter; `ScriptScreen` states what holds for this one.
   */
  const Keywords: seq<string> := [
    "how do i", "alternative to", "pain in the ass", "hate when", "manual work",
    "too expensive", "wish there was", "tired of", "spreadsheet", "looking for a tool",
    "anyone know", "is there a", "struggling with", "need help with", "frustrated with"
  ]

  /** `subreddit.new(limit=100)`: snapshot mode sees at most this many submissions. */
  const SnapshotLimit: nat := 100

  /** How much of the body the preview shows. */
  const PreviewLength: nat := 200

  /** The values the example configuration ships with. */
  const ClientIdPlaceholder: string := "your_client_id_here"
  const ClientSecretPlaceholder: string := "your_client_secret_here"

  // ---------------------------------------------------------------------------
  // `validate_credentials`
  // ---------------------------------------------------------------------------

  /** The outcome of the credential check, naming the first value that is missing. */
  datatype CredentialCheck = CredentialsOk | MissingClientId | MissingClientSecret

  /** A credential is usable when it is set, non-empty and not the placeholder. */
  predicate Usable(value: Option<string>, placeholder: string) {
    value.Some? && value.value != "" && value.value != placeholder
  }

  /**
   * `validate_credentials`: the id is examined first, so a missing id is
   * reported even when the secret is missing as well.
   */
  function ValidateCredentials(clientId: Option<string>, clientSecret: Option<string>): (r: CredentialCheck)
    ensures r == CredentialsOk <==> Usable(clientId, ClientIdPlaceholder) && Usable(clientSecret, ClientSecretPlaceholder)
    ensures r == MissingClientId <==> !Usable(clientId, ClientIdPlaceholder)
    ensures r == MissingClientSecret <==> Usable(clientId, ClientIdPlaceholder) && !Usable(clientSecret, ClientSecretPlaceholder)
  {
    if clientId == None || clientId == Some("") || clientId == Some(ClientIdPlaceholder) then MissingClientId
    else if clientSecret == None || clientSecret == Some("") || clientSecret == Some(ClientSecretPlaceholder) then MissingClientSecret
    else CredentialsOk
  }

  // ---------------------------------------------------------------------------
  // `format_post`
  // ---------------------------------------------------------------------------

  /**
   * The preview line of `format_post`: none for an empty body; otherwise the
   * first 200 characters with line breaks turned into spaces, followed by
   * `...` exactly when the body is longer than 200 characters.
   */
  function Preview(selftext: string): (r: Option<string>)
    ensures r.None? <==> selftext == ""
    ensures r.Some? ==> |r.value| == if |selftext| > PreviewLength then PreviewLength + 3 else |selftext|
    ensures r.Some? ==> forall i :: 0 <= i < |selftext| && i < PreviewLength ==>
      r.value[i] == (if selftext[i] == '\n' then ' ' else selftext[i])
    ensures r.Some? && |selftext| > PreviewLength ==> r.value[PreviewLength..] == "..."
  {
    if selftext == "" then None
    else
      var preview := ReplaceChar(Take(selftext, PreviewLength), '\n', ' ');
      assert forall i :: 0 <= i < |preview| ==> Take(selftext, PreviewLength)[i] == selftext[i];
      if |selftext| > PreviewLength then Some(preview + "...") else Some(preview)
  }

  /** A short body without line breaks is shown unchanged, and no preview ever holds a line break. */
  lemma PreviewShape(selftext: string)
    ensures Preview(selftext).Some? ==> forall i :: 0 <= i < |Preview(selftext).value| ==> Preview(selftext).value[i] != '\n'
    ensures 0 < |selftext| <= PreviewLength && (forall i :: 0 <= i < |selftext| ==> selftext[i] != '\n')
            ==> Preview(selftext) == Some(selftext)
  {
    if selftext != "" {
      var p := Preview(selftext).value;
      if |selftext| <= PreviewLength && (forall i :: 0 <= i < |selftext| ==> selftext[i] != '\n') {
        assert Take(selftext, PreviewLength) == selftext;
        assert ReplaceChar(selftext, '\n', ' ') == selftext;
      }
      forall i | 0 <= i < |p| ensures p[i] != '\n' {
        if i >= PreviewLength {
          assert p[PreviewLength..][i - PreviewLength] == p[i];
        }
      }
    }
  }

  /** The trigger line: the phrases found, joined with `", "`. */
  function TriggerLine(found: seq<string>): string {
    Join(found, ", ")
  }

  /** Every phrase found appears in the trigger line. */
  lemma {:induction false} TriggerLineNamesEvery(found: seq<string>, k: nat)
    requires k < |found|
    ensures Contains(TriggerLine(found), found[k])
    decreases |found|
  {
    var n := |found| - 1;
    if |found| == 1 {
      ContainsMiddle([], found[0], []);
      assert [] + found[0] + [] == TriggerLine(found);
    } else if k == n {
      ContainsMiddle(TriggerLine(found[..n]) + ", ", found[n], []);
      assert TriggerLine(found[..n]) + ", " + found[n] + [] == TriggerLine(found);
    } else {
      TriggerLineNamesEvery(found[..n], k);
      assert found[..n][k] == found[k];
      var prefix := TriggerLine(found[..n]);
      assert TriggerLine(found)[0..|prefix|] == prefix;
      ContainsInSlice(TriggerLine(found), found[k], 0, |prefix|);
    }
  }

  /** What `format_post` shows for one submission (timestamp, subreddit, votes and comments are not part of this model). */
  datatype Signal = Signal(triggers: string, title: string, link: string, preview: Option<string>)

  /**
   * `format_post`: the trigger line, the title, the full link behind
   * `https://www.reddit.com`, and the preview, present exactly for a
   * non-empty body.
   */
  function FormatPost(title: string, selftext: string, permalink: string, found: seq<string>): (r: Signal)
    ensures r.triggers == TriggerLine(found) && r.title == title
    ensures r.link == RedditBase + permalink
    ensures r.preview == Preview(selftext) && (r.preview.None? <==> selftext == "")
  {
    Signal(TriggerLine(found), title, RedditBase + permalink, Preview(selftext))
  }

  // ---------------------------------------------------------------------------
  // The scan loops of `scan_reddit`
  // ---------------------------------------------------------------------------

  /** The state of a scan: `found_count`, the signals shown, and whether an exception ended it. */
  datatype Tally = Tally(count: nat, signals: seq<Signal>, aborted: bool)

  /**
   * One pass of the loop body. A submission without a body makes
   * `title + " " + selftext` raise, which ends the scan.
   */
  function Step(keywords: seq<string>, t: Tally, sub: Submission): (r: Tally)
    ensures r.count == t.count || r.count == t.count + 1
    ensures |r.signals| - |t.signals| == r.count - t.count
  {
    if t.aborted then t
    else
      match sub.selftext
      case None => t.(aborted := true)
      case Some(body) =>
        var found := FoundKeywords(keywords, FullText(sub.title, body));
        if found == [] then t
        else Tally(t.count + 1, t.signals + [FormatPost(sub.title, body, sub.permalink, found)], false)
  }

  /**
   * The loop body over the submissions, in order, screening for `keywords`
   * (the script screens for `Keywords`; the list is a parameter here so that
   * the proofs hold for any list).
   */
  function Scan(keywords: seq<string>, subs: seq<Submission>): (t: Tally)
    ensures t.count == |t.signals| <= |subs|
    decreases |subs|
  {
    if subs == [] then Tally(0, [], false)
    else Step(keywords, Scan(keywords, subs[..|subs| - 1]), subs[|subs| - 1])
  }

  /**
   * Each signal belongs to a distinct submission with at least one trigger
   * phrase, in stream order: the count goes up by exactly one for such a
   * submission and is unchanged otherwise.
   */
  lemma {:induction false} ScanStep(keywords: seq<string>, subs: seq<Submission>, sub: Submission)
    requires !Scan(keywords, subs).aborted
    ensures sub.selftext.None? ==> Scan(keywords, subs + [sub]) == Scan(keywords, subs).(aborted := true)
    ensures sub.selftext.Some? ==>
      var t := Scan(keywords, subs + [sub]);
      var found := FoundKeywords(keywords, FullText(sub.title, sub.selftext.value));
      && !t.aborted
      && (found == [] ==> t == Scan(keywords, subs))
      && (found != [] ==> t.count == Scan(keywords, subs).count + 1
                          && t.signals == Scan(keywords, subs).signals + [FormatPost(sub.title, sub.selftext.value, sub.permalink, found)])
  {
    assert (subs + [sub])[..|subs|] == subs;
  }

  /**
   * With the script's own list, a submission yields at most 15 trigger
   * phrases, and it is counted exactly when one of them occurs.
   */
  lemma ScriptScreen(title: string, body: string)
    ensures |FoundKeywords(Keywords, FullText(title, body))| <= |Keywords| == 15
    ensures FoundKeywords(Keywords, FullText(title, body)) != [] <==> AnyKeyword(Keywords, FullText(title, body))
  {
    FoundKeywordsSpec(Keywords, FullText(title, body));
    AnyKeywordIffFound(Keywords, FullText(title, body));
  }

  /** Snapshot mode iterates at most 100 submissions, so it never counts more than 100. */
  function SnapshotListing(listing: seq<Submission>): (r: seq<Submission>)
    ensures |r| <= SnapshotLimit && |r| <= |listing|
    ensures r == listing[..|r|]
    ensures |listing| <= SnapshotLimit ==> r == listing
  {
    if |listing| <= SnapshotLimit then listing else listing[..SnapshotLimit]
  }

  /**
   * `scan_reddit` after a successful connection: the snapshot mode runs the
   * loop over the first 100 submissions of the listing, the stream mode over
   * the whole stream received. The script passes `Keywords`.
   */
  method ScanReddit(keywords: seq<string>, streamMode: bool, submissions: seq<Submission>) returns (foundCount: nat, signals: seq<Signal>, aborted: bool)
    ensures var t := Scan(keywords, if streamMode then submissions else SnapshotListing(submissions));
      foundCount == t.count && signals == t.signals && aborted == t.aborted
    ensures !streamMode ==> foundCount <= SnapshotLimit
  {
    var iterated := if streamMode then submissions else SnapshotListing(submissions);
    foundCount := 0;
    signals := [];
    aborted := false;
    var i := 0;
    while i < |iterated|
      invariant 0 <= i <= |iterated|
      invariant Scan(keywords, iterated[..i]) == Tally(foundCount, signals, false)
    {
      var sub := iterated[i];
      assert Scan(keywords, iterated[..i + 1]) == Step(keywords, Tally(foundCount, signals, false), sub) by {
        assert iterated[..i + 1][..i] == iterated[..i];
      }
      match sub.selftext {
        case None =>
          aborted := true;
          ScanStaysAborted(keywords, iterated, i + 1);
          return;
        case Some(body) =>
          var found := FoundKeywords(keywords, FullText(sub.title, body));
          if found != [] {
            foundCount := foundCount + 1;
            signals := signals + [FormatPost(sub.title, body, sub.permalink, found)];
          }
      }
      i := i + 1;
    }
    assert iterated[..i] == iterated;
  }

  /** Once the scan has raised, the remaining submissions are never looked at. */
  lemma {:induction false} ScanStaysAborted(keywords: seq<string>, subs: seq<Submission>, i: nat)
    requires i <= |subs|
    requires Scan(keywords, subs[..i]).aborted
    ensures Scan(keywords, subs) == Scan(keywords, subs[..i])
    decreases |subs| - i
  {
    if i < |subs| {
      assert subs[..i + 1][..i] == subs[..i];
      ScanStaysAborted(keywords, subs, i + 1);
    } else {
      assert subs[..i] == subs;
    }
  }
}
