/**
 * `AIAnalyzer` of the v2 radar: turns the buffered posts into one request,
 * sends it to the configured provider and turns the answer into the value
 * `_analyze_buffer` iterates over. The SDK call is the parameter `llm` and
 * `json.loads` the parameter `parse`; both may fail.
 */
module AnalyzerV2 {
  import opened Wrappers
  import opened Text
  import opened Json

  /** A post waiting in `post_buffer`: its text and its full link. */
  datatype BufferEntry = BufferEntry(text: string, permalink: string)

  /** `Config.AI_PROVIDER`; any other name makes `_setup_client` raise at start-up. */
  datatype Provider = OpenAi | Gemini

  /** How much of each post's text `_format_posts` sends. */
  const ContentLimit: nat := 1500

  /** The block `_format_posts` writes for the post at position `i`. */
  function PostBlock(i: nat, e: BufferEntry): string {
    "\n--- POST ID " + Decimal(i) + " ---\nLink: " + e.permalink + "\nContent: " + Take(e.text, ContentLimit)
      + "\n-------------------\n"
  }

  /** The whole text `_format_posts` builds: one block per post, in buffer order. */
  function Formatted(buffer: seq<BufferEntry>): string
    decreases |buffer|
  {
    if buffer == [] then "" else Formatted(buffer[..|buffer| - 1]) + PostBlock(|buffer| - 1, buffer[|buffer| - 1])
  }

  /**
   * Every buffered post appears in the request under the label
   * `POST ID i` for its own position `i`, with its link and at most
   * 1500 characters of its text.
   */
  lemma {:induction false} EveryPostIsFormatted(buffer: seq<BufferEntry>, i: nat)
    requires i < |buffer|
    ensures Contains(Formatted(buffer), PostBlock(i, buffer[i]))
    ensures Contains(PostBlock(i, buffer[i]), "\n--- POST ID " + Decimal(i) + " ---\n")
    ensures |Take(buffer[i].text, ContentLimit)| <= ContentLimit
    decreases |buffer|
  {
    var n := |buffer| - 1;
    var head := "\n--- POST ID " + Decimal(i) + " ---\n";
    var block := PostBlock(i, buffer[i]);
    assert block == [] + head + block[|head|..];
    ContainsMiddle([], head, block[|head|..]);
    if i == n {
      ContainsMiddle(Formatted(buffer[..n]), block, []);
      assert Formatted(buffer[..n]) + block + [] == Formatted(buffer);
    } else {
      EveryPostIsFormatted(buffer[..n], i);
      assert buffer[..n][i] == buffer[i];
      var f := Formatted(buffer[..n]);
      ContainsInSlice(Formatted(buffer), block, 0, |f|);
    }
  }

  /** `_format_posts`: accumulates the blocks in a loop. */
  method FormatPosts(buffer: seq<BufferEntry>) returns (formatted: string)
    ensures formatted == Formatted(buffer)
  {
    formatted := "";
    var i := 0;
    while i < |buffer|
      invariant 0 <= i <= |buffer|
      invariant formatted == Formatted(buffer[..i])
    {
      assert buffer[..i + 1][..i] == buffer[..i];
      formatted := formatted + PostBlock(i, buffer[i]);
      i := i + 1;
    }
    assert buffer[..i] == buffer;
  }

  /**
   * The request `_create_prompt` builds. Its fixed instruction text is not
   * part of this model; what varies is the number of posts, the formatted
   * posts and the score threshold it tells the model to use.
   */
  datatype Prompt = Prompt(count: nat, formatted: string, minScore: int)

  /**
   * `_analyze_with_openai`'s reshaping of the parsed answer: a dict holding
   * `"results"` gives that entry, a list is kept, any other truthy value
   * becomes a one-element list and a falsy one the empty list.
   */
  function NormaliseOpenAi(v: Value): (r: Value)
    ensures v.Object? && "results" in v.fields ==> r == v.fields["results"]
    ensures !(v.Object? && "results" in v.fields) ==> r.Array?
    ensures v.Array? ==> r == v
    ensures !v.Array? && !(v.Object? && "results" in v.fields) ==> r.items == if Truthy(v) then [v] else []
  {
    if v.Object? && "results" in v.fields then v.fields["results"]
    else if v.Array? then v
    else if Truthy(v) then Array([v])
    else Array([])
  }

  /**
   * `_analyze_with_gemini`'s clean-up of the response text: strip it, and if
   * it then starts with a code fence, remove every fence marker and strip
   * again.
   */
  function CleanGeminiText(text: string): (r: string)
    ensures r == [] || (!IsSpace(r[0]) && !IsSpace(r[|r| - 1]))
    ensures StartsWith(Strip(text), Fence) ==> !Contains(r, Fence) && !Contains(r, JsonFence)
    ensures !StartsWith(Strip(text), Fence) ==> r == Strip(text)
  {
    var t := Strip(text);
    if StartsWith(t, Fence) then
      NoFenceAfterRemoval(t);
      StripKeepsAbsence(RemoveFences(t), Fence);
      StripKeepsAbsence(RemoveFences(t), JsonFence);
      Strip(RemoveFences(t))
    else t
  }

  /**
   * The clean-up keeps the answer inside the fence: a backtick-free body
   * wrapped as "```json" + body + "```" comes out as the stripped body.
   */
  lemma CleanGeminiTextUnwraps(body: string)
    requires NoBacktick(body)
    ensures CleanGeminiText(JsonFence + body + Fence) == Strip(body)
  {
    var s := JsonFence + body + Fence;
    assert s[0] == '`' && s[|s| - 1] == '`';
    StripUntrimmed(s);
    assert s[..|Fence|] == Fence;
    FencedBodyKept(body);
  }

  /**
   * What `analyze_batch` returns: nothing is sent for an empty buffer; a
   * failed call or an unparsable answer gives the empty list; otherwise the
   * OpenAI answer is reshaped and the Gemini answer cleaned before parsing.
   */
  function BatchResults(provider: Provider, buffer: seq<BufferEntry>, minScore: int,
                        llm: Prompt -> Reply, parse: string -> Option<Value>): (r: Value)
    ensures buffer == [] ==> r == Array([])
    ensures buffer != [] && llm(Prompt(|buffer|, Formatted(buffer), minScore)).CallFailed? ==> r == Array([])
  {
    if buffer == [] then Array([])
    else
      match llm(Prompt(|buffer|, Formatted(buffer), minScore))
      case CallFailed => Array([])
      case Answered(text) =>
        match provider
        case OpenAi => (match parse(text) case None => Array([]) case Some(v) => NormaliseOpenAi(v))
        case Gemini => (match parse(CleanGeminiText(text)) case None => Array([]) case Some(v) => v)
  }

  /**
   * An answer that does not parse gives no verdicts either, whichever
   * provider answered (`json.loads` raising inside the `try`).
   */
  lemma UnparsableAnswerGivesNothing(provider: Provider, buffer: seq<BufferEntry>, minScore: int,
                                     llm: Prompt -> Reply, parse: string -> Option<Value>)
    requires buffer != []
    requires llm(Prompt(|buffer|, Formatted(buffer), minScore)).Answered?
    requires var text := llm(Prompt(|buffer|, Formatted(buffer), minScore)).text;
      parse(if provider.OpenAi? then text else CleanGeminiText(text)).None?
    ensures BatchResults(provider, buffer, minScore, llm, parse) == Array([])
  {
  }

  /**
   * `analyze_batch`: formats the posts, builds the prompt and calls the
   * provider. Nothing is sent for an empty buffer; the request carries the
   * post count, every post's block and the threshold. A failed call or an
   * unparsable answer gives the empty list; otherwise OpenAI's parsed answer
   * is reshaped into a list, and Gemini's is parsed after the fence clean-up.
   */
  method AnalyzeBatch(provider: Provider, buffer: seq<BufferEntry>, minScore: int,
                      llm: Prompt -> Reply, parse: string -> Option<Value>) returns (results: Value)
    ensures buffer == [] ==> results == Array([])
    ensures buffer != [] ==>
      var reply := llm(Prompt(|buffer|, Formatted(buffer), minScore));
      && (reply.CallFailed? ==> results == Array([]))
      && (reply.Answered? && provider.OpenAi? ==>
            if parse(reply.text).None? then results == Array([]) else results == NormaliseOpenAi(parse(reply.text).value))
      && (reply.Answered? && provider.Gemini? ==>
            if parse(CleanGeminiText(reply.text)).None? then results == Array([])
            else results == parse(CleanGeminiText(reply.text)).value)
  {
    if buffer == [] {
      return Array([]);
    }
    var formatted := FormatPosts(buffer);
    var prompt := Prompt(|buffer|, formatted, minScore);
    match llm(prompt)
    case CallFailed =>
      results := Array([]);
    case Answered(text) =>
      if provider.OpenAi? {
        match parse(text)
        case None => results := Array([]);
        case Some(v) => results := NormaliseOpenAi(v);
      } else {
        match parse(CleanGeminiText(text))
        case None => results := Array([]);
        case Some(v) => results := v;
      }
  }
}
