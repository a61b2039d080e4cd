/**
 * The checks of scripts/test_rag.py: case-insensitive keyword search with
 * the missing keywords collected in order, exact URL search, and the pass
 * condition of a test case. Printing and the fixed test table are not
 * modelled; the hits a test case retrieves are a parameter.
 */
module RagTest {
  import opened Text
  import opened PyJson
  import opened Retrieval

  /** `keyword.lower() in text.lower()`. */
  predicate Found(text: string, keyword: string)
  {
    Contains(Lower(text), Lower(keyword))
  }

  /** The keywords that are not found, in their original order, duplicates kept. */
  function Missing(text: string, keywords: seq<string>): seq<string>
  {
    if keywords == [] then []
    else (if Found(text, keywords[0]) then [] else [keywords[0]]) + Missing(text, keywords[1..])
  }

  /** `check_keywords_in_text`: the loop appending to `missing_keywords`. */
  method CheckKeywordsInText(text: string, keywords: seq<string>) returns (allFound: bool, missing: seq<string>)
    ensures missing == Missing(text, keywords)
    ensures allFound <==> missing == []
  {
    var textLower := Lower(text);
    missing := [];
    var i := 0;
    while i < |keywords|
      invariant 0 <= i <= |keywords|
      invariant missing + Missing(text, keywords[i..]) == Missing(text, keywords)
    {
      assert keywords[i..][1..] == keywords[i + 1..];
      if !Contains(textLower, Lower(keywords[i])) {
        missing := missing + [keywords[i]];
      }
      i := i + 1;
    }
    assert missing + [] == missing;
    allFound := |missing| == 0;
  }

  /** `check_url_in_text`: exact, case-sensitive search. */
  predicate UrlFound(text: string, url: string)
  {
    Contains(text, url)
  }

  /** A test case passes when every keyword and the URL are found. */
  predicate TestPassed(answer: string, keywords: seq<string>, url: string)
  {
    Missing(answer, keywords) == [] && UrlFound(answer, url)
  }

  /** `run_test_case` once the hits are retrieved: compose, check the keywords, check the URL. */
  method RunTestCase(question: string, keywords: seq<string>, url: string, hits: seq<Hit>) returns (passed: bool)
    ensures passed == TestPassed(ComposeAnswer(question, hits), keywords, url)
  {
    var answer := ComposeAnswer(question, hits);
    var keywordsFound, missing := CheckKeywordsInText(answer, keywords);
    var urlFound := UrlFound(answer, url);
    passed := keywordsFound && urlFound;
  }

  // ---------------------------------------------------------------------
  // What the checks promise

  /** A keyword is reported missing exactly as often as it is listed, unless it is found. */
  lemma {:induction false} MissingCounts(text: string, keywords: seq<string>, x: string)
    ensures multiset(Missing(text, keywords))[x] == if Found(text, x) then 0 else multiset(keywords)[x]
  {
    if keywords != [] {
      MissingCounts(text, keywords[1..], x);
      assert keywords == [keywords[0]] + keywords[1..];
    }
  }

  /** The missing list is exactly the keywords that are not found. */
  lemma MissingMembers(text: string, keywords: seq<string>, x: string)
    ensures x in Missing(text, keywords) <==> x in keywords && !Found(text, x)
  {
    MissingCounts(text, keywords, x);
  }

  /** `b` keeps the elements of `a` in order, with others in between. */
  predicate Subsequence(a: seq<string>, b: seq<string>)
    decreases |b|
  {
    if b == [] then a == []
    else (a != [] && a[0] == b[0] && Subsequence(a[1..], b[1..])) || Subsequence(a, b[1..])
  }

  /** The missing keywords keep their order in the keyword list. */
  lemma {:induction false} MissingInOrder(text: string, keywords: seq<string>)
    ensures Subsequence(Missing(text, keywords), keywords)
  {
    if keywords != [] {
      MissingInOrder(text, keywords[1..]);
      var m := Missing(text, keywords);
      if Found(text, keywords[0]) {
        assert m == Missing(text, keywords[1..]);
        assert Subsequence(m, keywords[1..]);
      } else {
        assert m[0] == keywords[0] && m[1..] == Missing(text, keywords[1..]);
        assert Subsequence(m[1..], keywords[1..]);
      }
    }
  }

  /** Nothing is missing exactly when every keyword is found; no keywords, nothing missing. */
  lemma {:induction false} NothingMissing(text: string, keywords: seq<string>)
    ensures Missing(text, keywords) == [] <==> forall k :: 0 <= k < |keywords| ==> Found(text, keywords[k])
    ensures keywords == [] ==> Missing(text, keywords) == []
  {
    if keywords != [] {
      NothingMissing(text, keywords[1..]);
      assert forall k :: 1 <= k < |keywords| ==> keywords[k] == keywords[1..][k - 1];
    }
  }

  /** The URL check is stricter than the keyword check: it does not fold case. */
  lemma UrlCheckIsExact(text: string, url: string)
    ensures UrlFound(text, url) ==> Found(text, url)
    ensures !UrlFound("G", "g") && Found("G", "g")
  {
    if UrlFound(text, url) {
      ContainsLower(text, url);
    }
    assert OccursAt(Lower("G"), Lower("g"), 0);
    assert forall i | 0 <= i <= 0 :: !OccursAt("G", "g", i) by {
      assert "G"[0..1][0] != "g"[0];
    }
  }

  /** The pass condition, spelled out. */
  lemma TestPassedIff(answer: string, keywords: seq<string>, url: string)
    ensures TestPassed(answer, keywords, url) <==>
      (forall k :: 0 <= k < |keywords| ==> Found(answer, keywords[k])) && Contains(answer, url)
  {
    NothingMissing(answer, keywords);
  }

  /**
   * A test case passes on a cited answer when its keywords occur in the
   * top hit's text and its expected URL is the top hit's URL.
   */
  lemma CitedAnswerPasses(question: string, hits: seq<Hit>, keywords: seq<string>)
    requires hits != [] && HitUrl(hits[0]).Str? && HitUrl(hits[0]).s != ""
    requires forall k :: 0 <= k < |keywords| ==> Found(hits[0].text, keywords[k])
    ensures TestPassed(ComposeAnswer(question, hits), keywords, HitUrl(hits[0]).s)
  {
    var answer := ComposeAnswer(question, hits);
    CitedAnswerContainsUrl(question, hits);
    ContainsLower(answer, hits[0].text);
    forall k | 0 <= k < |keywords| ensures Found(answer, keywords[k]) {
      ContainsTransitive(Lower(answer), Lower(hits[0].text), Lower(keywords[k]));
    }
    TestPassedIff(answer, keywords, HitUrl(hits[0]).s);
  }
}
