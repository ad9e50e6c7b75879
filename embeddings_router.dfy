/**
 * The `/v1/embeddings` endpoint: the input is normalised to a list of texts, each text
 * is embedded in turn and numbered by its position, and the usage counts the texts'
 * whitespace-separated tokens the way Python's `str.split()` (no argument) does.
 *
 * The embedding model is foreign: it is a function parameter from a text to its vector.
 */
module EmbeddingsRouter {
  import opened Schemas
  import Config

  /** The characters for which Python's `str.isspace()` holds, the separators of
      `str.split()` with no argument. */
  predicate IsSpace(c: char) {
    || c == ' ' || c == '\t' || c == '\n' || c == '\r'
    || c as int == 0x0B || c as int == 0x0C
    || (0x1C <= c as int <= 0x1F)
    || c as int == 0x85 || c as int == 0xA0 || c as int == 0x1680
    || (0x2000 <= c as int <= 0x200A)
    || c as int == 0x2028 || c as int == 0x2029 || c as int == 0x202F || c as int == 0x205F
    || c as int == 0x3000
  }

  /** `s.split()` continued from a partly read word `current`: the maximal runs of
      non-space characters, in order. */
  function Split(s: string, current: string): seq<string>
    decreases |s|
  {
    if s == [] then (if current == [] then [] else [current])
    else if IsSpace(s[0]) then (if current == [] then Split(s[1..], []) else [current] + Split(s[1..], []))
    else Split(s[1..], current + [s[0]])
  }

  /** `len(text.split())`. */
  function TokenCount(text: string): nat {
    |Split(text, [])|
  }

  /** The number of positions where a token starts: a non-space character at the start
      of the text or after a space (`afterSpace` says whether the text so far ended in
      one, or is empty). */
  function RunStarts(s: string, afterSpace: bool): nat
    decreases |s|
  {
    if s == [] then 0
    else (if afterSpace && !IsSpace(s[0]) then 1 else 0) + RunStarts(s[1..], IsSpace(s[0]))
  }

  predicate NoSpace(w: string) {
    forall i :: 0 <= i < |w| ==> !IsSpace(w[i])
  }

  /** The words of a split are non-empty and hold no space, and there is one per run of
      non-space characters. */
  lemma {:induction false} SplitIsRuns(s: string, current: string)
    requires NoSpace(current)
    ensures |Split(s, current)| == RunStarts(s, current == []) + (if current == [] then 0 else 1)
    ensures forall i :: 0 <= i < |Split(s, current)| ==> Split(s, current)[i] != [] && NoSpace(Split(s, current)[i])
    decreases |s|
  {
    if s != [] {
      if IsSpace(s[0]) {
        SplitIsRuns(s[1..], []);
      } else {
        assert NoSpace(current + [s[0]]) by {
          assert forall i :: 0 <= i < |current| ==> (current + [s[0]])[i] == current[i];
        }
        SplitIsRuns(s[1..], current + [s[0]]);
      }
    }
  }

  /** A text counts no token exactly when it is all spaces (or empty). */
  lemma {:induction false} NoTokensIffBlank(s: string, afterSpace: bool)
    requires afterSpace
    ensures RunStarts(s, afterSpace) == 0 <==> forall i :: 0 <= i < |s| ==> IsSpace(s[i])
    decreases |s|
  {
    if s != [] {
      if IsSpace(s[0]) {
        NoTokensIffBlank(s[1..], true);
        assert forall i :: 1 <= i < |s| ==> s[1..][i - 1] == s[i];
      }
    }
  }

  /** The token count of a text is the number of its runs of non-space characters, and
      it is zero exactly when the text is blank. */
  lemma TokenCountCharacterised(text: string)
    ensures TokenCount(text) == RunStarts(text, true)
    ensures TokenCount(text) == 0 <==> forall i :: 0 <= i < |text| ==> IsSpace(text[i])
  {
    SplitIsRuns(text, []);
    NoTokensIffBlank(text, true);
  }

  /** `sum(len(text.split()) for text in texts)`. */
  function TotalTokens(texts: seq<string>): nat {
    if texts == [] then 0 else TotalTokens(texts[..|texts| - 1]) + TokenCount(texts[|texts| - 1])
  }

  /** The usage of two batches together is the sum of their usages. */
  lemma {:induction false} TotalTokensAppend(a: seq<string>, b: seq<string>)
    ensures TotalTokens(a + b) == TotalTokens(a) + TotalTokens(b)
    decreases |b|
  {
    if b != [] {
      assert (a + b)[..|a + b| - 1] == a + b[..|b| - 1];
      TotalTokensAppend(a, b[..|b| - 1]);
    } else {
      assert a + b == a;
    }
  }

  /** The input as a list: one string becomes a one-element list, a list is kept. */
  function InputTexts(input: EmbeddingInput): (texts: seq<string>)
    ensures input.Text? ==> texts == [input.text]
    ensures input.Texts? ==> texts == input.texts
  {
    match input
    case Text(t) => [t]
    case Texts(ts) => ts
  }

  /** `create_embeddings`: one data entry per text, in order, numbered by position; the
      model named in the settings; both usage counts the total token count. */
  method CreateEmbeddings(request: EmbeddingRequest, settings: Config.Settings, embed: string -> seq<real>)
    returns (response: EmbeddingResponse)
    ensures var texts := InputTexts(request.input);
            && |response.data| == |texts|
            && (forall i :: 0 <= i < |texts| ==>
                  response.data[i] == EmbeddingData(embed(texts[i]), i) && response.data[i].objectTag == "embedding")
            && response.usage.promptTokens == TotalTokens(texts)
    ensures response.usage.totalTokens == response.usage.promptTokens
    ensures response.model == settings.embedding.model && response.objectTag == "list"
    ensures request.input == EmbeddingInput.Texts([]) ==> response.data == [] && response.usage == EmbeddingUsage(0, 0)
  {
    var texts := InputTexts(request.input);
    var data: seq<EmbeddingData> := [];
    for idx := 0 to |texts|
      invariant |data| == idx
      invariant forall i :: 0 <= i < idx ==> data[i] == EmbeddingData(embed(texts[i]), i)
    {
      data := data + [EmbeddingData(embed(texts[idx]), idx)];
    }
    var tokens := TotalTokens(texts);
    response := EmbeddingResponse(data, settings.embedding.model, EmbeddingUsage(tokens, tokens));
  }
}
