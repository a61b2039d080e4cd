/**
 * The prompt sent to the generative model (`build_prompt` in
 * scripts/rag_query_gemini.py). Calling the model, and the API key it
 * needs, are not modelled.
 */
module Prompt {
  import opened Text
  import opened PyJson
  import opened Retrieval

  const Instructions: string :=
    "You are a mutual fund FAQ assistant. Answer the user's question using only the provided snippets. "
    + "Every answer must:\n"
    + "1. Contain only verified facts from the snippets.\n"
    + "2. Include exactly one explicit citation link to the most relevant source URL.\n"
    + "3. Avoid investment advice, recommendations, or opinions.\n"
    + "4. If the question cannot be answered from the snippets, say so and mention that only facts are provided.\n"

  const BlockSeparator: string := "\n\n"

  // Written in two pieces so that its first letter is visible to the verifier.
  const NoSnippetsText: string := "No snippets" + " available."

  const SnippetPrefix: string := "Snippet "

  const SnippetsHeader: string := "\n\nSnippets:\n"
  const QuestionHeader: string := "\n\nUser question: "
  const AnswerCue: string := "\nAnswer:"

  /** One context block: the hit's 1-based position, its URL and its text. */
  function Block(n: int, url: Json, text: string): string
  {
    BlockHead(n, url) + text
  }

  function BlockHead(n: int, url: Json): string
  {
    SnippetPrefix + IntStr(n) + " (source: " + Show(url) + "):\n"
  }

  /** A block opens with its number and URL and closes with the hit's text; it is never empty. */
  lemma BlockShape(n: int, url: Json, text: string)
    ensures StartsWith(Block(n, url, text), SnippetPrefix + IntStr(n) + " (source: " + Show(url) + "):\n")
    ensures EndsWith(Block(n, url, text), text)
    ensures Block(n, url, text)[0] == 'S'
  {
    Affixes(BlockHead(n, url), text, []);
    assert BlockHead(n, url) + text + [] == Block(n, url, text);
  }

  /** The blocks for hits `p` onwards: hits whose URL is missing or empty are skipped. */
  function BlocksFrom(hits: seq<Hit>, p: nat): seq<string>
    decreases |hits| - p
  {
    if p >= |hits| then []
    else
      var url := HitUrl(hits[p]);
      (if Truthy(url) then [Block(p + 1, url, hits[p].text)] else []) + BlocksFrom(hits, p + 1)
  }

  /** `"\n\n".join(blocks) or "No snippets available."`. */
  function Context(blocks: seq<string>): string
  {
    var joined := Join(BlockSeparator, blocks);
    if joined == "" then NoSnippetsText else joined
  }

  /** The whole prompt for a question and its hits. */
  function PromptText(question: string, hits: seq<Hit>): string
  {
    Instructions + SnippetsHeader + Context(BlocksFrom(hits, 0)) + QuestionHeader + question + AnswerCue
  }

  /** `build_prompt`: the block loop, then the assembly. */
  method BuildPrompt(question: string, hits: seq<Hit>) returns (prompt: string)
    ensures prompt == PromptText(question, hits)
  {
    var blocks: seq<string> := [];
    var idx := 1;
    while idx <= |hits|
      invariant 1 <= idx <= |hits| + 1
      invariant blocks + BlocksFrom(hits, idx - 1) == BlocksFrom(hits, 0)
    {
      var hit := hits[idx - 1];
      var url := HitUrl(hit);
      if !Truthy(url) {
        idx := idx + 1;
        continue;
      }
      assert blocks + BlocksFrom(hits, idx - 1) == (blocks + [Block(idx, url, hit.text)]) + BlocksFrom(hits, idx);
      blocks := blocks + [Block(idx, url, hit.text)];
      idx := idx + 1;
    }
    assert blocks + [] == blocks;
    var contextText := Join(BlockSeparator, blocks);
    if contextText == "" {
      contextText := NoSnippetsText;
    }
    prompt := Instructions + SnippetsHeader + contextText + QuestionHeader + question + AnswerCue;
  }

  // ---------------------------------------------------------------------
  // What the prompt promises

  /** The 1-based positions of the hits from `p` on that have a usable URL. */
  function Kept(hits: seq<Hit>, p: nat): seq<int>
    decreases |hits| - p
  {
    if p >= |hits| then []
    else (if Truthy(HitUrl(hits[p])) then [p + 1] else []) + Kept(hits, p + 1)
  }

  /** Every kept position lies after `p`, names a hit with a usable URL, and they ascend. */
  predicate KeptValid(hits: seq<Hit>, ks: seq<int>, p: nat)
  {
    && (forall i :: 0 <= i < |ks| ==> p < ks[i] <= |hits| && Truthy(HitUrl(hits[ks[i] - 1])))
    && (forall i, j :: 0 <= i < j < |ks| ==> ks[i] < ks[j])
  }

  /** Block `i` is numbered by kept position `i` and shows that hit's URL and text. */
  predicate Numbered(hits: seq<Hit>, blocks: seq<string>, ks: seq<int>)
  {
    && |blocks| == |ks|
    && forall i :: 0 <= i < |ks| ==> 1 <= ks[i] <= |hits| && blocks[i] == BlockOf(hits, ks[i])
  }

  /** The block of hit number `n`, counting from 1. */
  function BlockOf(hits: seq<Hit>, n: int): string
    requires 1 <= n <= |hits|
  {
    Block(n, HitUrl(hits[n - 1]), hits[n - 1].text)
  }

  /** Kept positions name hits with a usable URL, in ascending order. */
  lemma {:induction false} KeptSound(hits: seq<Hit>, p: nat)
    ensures KeptValid(hits, Kept(hits, p), p)
    decreases |hits| - p
  {
    if p < |hits| {
      KeptSound(hits, p + 1);
      var ks := Kept(hits, p);
      var rest := Kept(hits, p + 1);
      var head := if Truthy(HitUrl(hits[p])) then [p + 1] else [];
      assert ks == head + rest;
      assert forall i :: |head| <= i < |ks| ==> ks[i] == rest[i - |head|];
    }
  }

  /** Blocks keep hit order and are numbered by position in the full hit list, gaps and all. */
  lemma {:induction false} BlocksNumbered(hits: seq<Hit>, p: nat)
    ensures Numbered(hits, BlocksFrom(hits, p), Kept(hits, p))
    decreases |hits| - p
  {
    if p < |hits| {
      BlocksNumbered(hits, p + 1);
      if Truthy(HitUrl(hits[p])) {
        NumberedCons(hits, p, Kept(hits, p + 1), BlocksFrom(hits, p + 1));
        assert BlocksFrom(hits, p) == [BlockOf(hits, p + 1)] + BlocksFrom(hits, p + 1);
      }
    }
  }

  /** Putting hit `p`'s block in front of numbered blocks keeps them numbered. */
  lemma NumberedCons(hits: seq<Hit>, p: nat, ks: seq<int>, bs: seq<string>)
    requires p < |hits| && Numbered(hits, bs, ks)
    ensures Numbered(hits, [BlockOf(hits, p + 1)] + bs, [p + 1] + ks)
  {
    var ks' := [p + 1] + ks;
    var bs' := [BlockOf(hits, p + 1)] + bs;
    forall i | 0 <= i < |ks'|
      ensures 1 <= ks'[i] <= |hits| && bs'[i] == BlockOf(hits, ks'[i])
    {
      if i > 0 {
        assert ks'[i] == ks[i - 1] && bs'[i] == bs[i - 1];
      }
    }
  }

  /** Every hit from `p` on with a usable URL has a block. */
  lemma {:induction false} KeptComplete(hits: seq<Hit>, p: nat)
    ensures forall q :: p <= q < |hits| && Truthy(HitUrl(hits[q])) ==> q + 1 in Kept(hits, p)
    decreases |hits| - p
  {
    if p < |hits| {
      KeptComplete(hits, p + 1);
    }
  }

  /** No block survives exactly when no hit from `p` on has a usable URL. */
  lemma {:induction false} BlocksEmpty(hits: seq<Hit>, p: nat)
    ensures BlocksFrom(hits, p) == [] <==> forall q :: p <= q < |hits| ==> !Truthy(HitUrl(hits[q]))
    decreases |hits| - p
  {
    if p < |hits| {
      BlocksEmpty(hits, p + 1);
    }
  }

  /** The first surviving block, like every block, starts with "Snippet". */
  lemma {:induction false} FirstBlock(hits: seq<Hit>, p: nat)
    requires BlocksFrom(hits, p) != []
    ensures |BlocksFrom(hits, p)[0]| > 0 && BlocksFrom(hits, p)[0][0] == 'S'
    decreases |hits| - p
  {
    if Truthy(HitUrl(hits[p])) {
      BlockShape(p + 1, HitUrl(hits[p]), hits[p].text);
    } else {
      FirstBlock(hits, p + 1);
    }
  }

  /** The block of every hit from `p` on that has a usable URL is among the blocks. */
  lemma {:induction false} BlockOfHit(hits: seq<Hit>, p: nat, q: int)
    requires p <= q < |hits| && Truthy(HitUrl(hits[q]))
    ensures Block(q + 1, HitUrl(hits[q]), hits[q].text) in BlocksFrom(hits, p)
    decreases |hits| - p
  {
    if p < q {
      BlockOfHit(hits, p + 1, q);
    }
  }

  /** The joined blocks, when any survive: they start with a block, so they are not empty. */
  lemma ContextIsJoin(hits: seq<Hit>)
    requires BlocksFrom(hits, 0) != []
    ensures Context(BlocksFrom(hits, 0)) == Join(BlockSeparator, BlocksFrom(hits, 0))
    ensures Context(BlocksFrom(hits, 0))[0] == 'S'
  {
    var blocks := BlocksFrom(hits, 0);
    JoinContainsParts(BlockSeparator, blocks, 0);
    FirstBlock(hits, 0);
    assert blocks[0] <= Join(BlockSeparator, blocks);
    assert Join(BlockSeparator, blocks)[0] == blocks[0][0];
  }

  /** The context falls back to the fixed text exactly when no hit has a usable URL. */
  lemma ContextFallback(hits: seq<Hit>)
    ensures Context(BlocksFrom(hits, 0)) == NoSnippetsText <==> forall q :: 0 <= q < |hits| ==> !Truthy(HitUrl(hits[q]))
  {
    BlocksEmpty(hits, 0);
    if BlocksFrom(hits, 0) != [] {
      ContextIsJoin(hits);
      assert NoSnippetsText[0] == 'N';
    }
  }

  /** The prompt opens with the instructions, holds the question verbatim and ends with "Answer:". */
  lemma PromptFrame(question: string, hits: seq<Hit>)
    ensures StartsWith(PromptText(question, hits), Instructions)
    ensures EndsWith(PromptText(question, hits), AnswerCue)
    ensures Contains(PromptText(question, hits), question)
  {
    var before := Instructions + SnippetsHeader + Context(BlocksFrom(hits, 0)) + QuestionHeader;
    Affixes(before, question, AnswerCue);
    ContainsItself(before, question, AnswerCue);
    assert Instructions <= before;
  }

  /** Whatever the context contains, the prompt contains. */
  lemma PromptHoldsContext(question: string, hits: seq<Hit>, sub: string)
    requires Contains(Context(BlocksFrom(hits, 0)), sub)
    ensures Contains(PromptText(question, hits), sub)
  {
    var before := Instructions + SnippetsHeader;
    var context := Context(BlocksFrom(hits, 0));
    var after := QuestionHeader + question + AnswerCue;
    assert PromptText(question, hits) == before + context + after;
    ContainsInfix(before, context, after, sub);
  }

  /** Every hit with a usable URL reaches the prompt as its numbered block. */
  lemma HitsReachPrompt(question: string, hits: seq<Hit>, q: int)
    requires 0 <= q < |hits| && Truthy(HitUrl(hits[q]))
    ensures Contains(PromptText(question, hits), Block(q + 1, HitUrl(hits[q]), hits[q].text))
  {
    var blocks := BlocksFrom(hits, 0);
    var b := Block(q + 1, HitUrl(hits[q]), hits[q].text);
    BlockOfHit(hits, 0, q);
    var i :| 0 <= i < |blocks| && blocks[i] == b;
    JoinContainsParts(BlockSeparator, blocks, i);
    ContextIsJoin(hits);
    PromptHoldsContext(question, hits, b);
  }
}
