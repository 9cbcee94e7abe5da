/**
 * Reddit posts as the scripts receive them, and the keyword screen they all
 * share: lower-case `title + " " + selftext` and look for trigger phrases.
 */
module Feed {
  import opened Wrappers
  import opened Text

  /** The prefix every saved or printed link gets in front of a post's permalink. */
  const RedditBase: string := "https://www.reddit.com"

  /** One `children[k]['data']` entry of a `/new.json` listing page. */
  datatype Post = Post(id: string, title: string, selftext: string, permalink: string)

  /** One `praw` submission; `selftext` may be `None`. */
  datatype Submission = Submission(title: string, selftext: Option<string>, permalink: string)

  /** The ids of a page of posts. */
  function IdsOf(page: seq<Post>): set<string> {
    set i | 0 <= i < |page| :: page[i].id
  }

  /** Adding one post to a page adds its id. */
  lemma IdsOfSnoc(page: seq<Post>)
    requires page != []
    ensures IdsOf(page) == IdsOf(page[..|page| - 1]) + {page[|page| - 1].id}
  {
    var i := |page| - 1;
    forall x | x in IdsOf(page) ensures x in IdsOf(page[..i]) + {page[i].id} {
      var j :| 0 <= j < |page| && page[j].id == x;
      if j < i {
        assert page[..i][j] == page[j];
      }
    }
    forall x | x in IdsOf(page[..i]) ensures x in IdsOf(page) {
      var j :| 0 <= j < i && page[..i][j].id == x;
      assert page[j].id == x;
    }
  }

  /** Post `i` of the page carries an id neither seen before the page nor earlier in it. */
  predicate FirstSighting(seen: set<string>, page: seq<Post>, i: int)
    requires 0 <= i < |page|
  {
    page[i].id !in seen && page[i].id !in IdsOf(page[..i])
  }

  /** Whether a post is a first sighting does not depend on the posts after it. */
  lemma FirstSightingPrefix(seen: set<string>, page: seq<Post>, n: nat, i: nat)
    requires i < n <= |page|
    ensures FirstSighting(seen, page[..n], i) <==> FirstSighting(seen, page, i)
  {
    assert page[..n][..i] == page[..i];
  }

  /** `(title + " " + selftext).lower()`. */
  function FullText(title: string, selftext: string): string {
    Lower(title + " " + selftext)
  }

  /** `any(kw in text for kw in keywords)`. */
  predicate AnyKeyword(keywords: seq<string>, text: string) {
    exists k :: k in keywords && Contains(text, k)
  }

  /** `a` is `b` with some elements left out, the rest kept in their order. */
  predicate IsSubsequence<T(==)>(a: seq<T>, b: seq<T>)
    decreases |b|
  {
    a == [] || (b != [] && ((a[0] == b[0] && IsSubsequence(a[1..], b[1..])) || IsSubsequence(a, b[1..])))
  }

  /** `[kw for kw in keywords if kw in text]`: the trigger phrases found, in list order. */
  function FoundKeywords(keywords: seq<string>, text: string): seq<string>
    decreases |keywords|
  {
    if keywords == [] then []
    else if Contains(text, keywords[0]) then [keywords[0]] + FoundKeywords(keywords[1..], text)
    else FoundKeywords(keywords[1..], text)
  }

  /**
   * The phrases found are exactly the keywords the text contains, kept in
   * the order of the keyword list.
   */
  lemma {:induction false} FoundKeywordsSpec(keywords: seq<string>, text: string)
    ensures |FoundKeywords(keywords, text)| <= |keywords|
    ensures forall k :: k in FoundKeywords(keywords, text) <==> k in keywords && Contains(text, k)
    ensures IsSubsequence(FoundKeywords(keywords, text), keywords)
    decreases |keywords|
  {
    if keywords != [] {
      var rest := FoundKeywords(keywords[1..], text);
      FoundKeywordsSpec(keywords[1..], text);
      assert forall k :: k in keywords <==> k == keywords[0] || k in keywords[1..];
      if Contains(text, keywords[0]) {
        assert ([keywords[0]] + rest)[1..] == rest;
      }
    }
  }

  /** The `any(...)` screen and the `found_keywords` screen accept the same posts. */
  lemma AnyKeywordIffFound(keywords: seq<string>, text: string)
    ensures AnyKeyword(keywords, text) <==> FoundKeywords(keywords, text) != []
  {
    var found := FoundKeywords(keywords, text);
    FoundKeywordsSpec(keywords, text);
    if found != [] {
      assert found[0] in found;
    }
  }
}
