/**
 * The Cohere text-generation model (llms/GenAICohereGenerationBase.java):
 * it sends the first prompt and its configured parameters to the generative
 * AI service and groups the returned texts into one list of numGenerations
 * generations per prompt.
 */
module Generation {
  import opened Common

  /** One text the service returned, with its identifier; either may be null. */
  datatype GeneratedText = GeneratedText(id: Option<string>, text: Option<string>)

  /** A generation as handed back to the caller: its text and an info map holding only "id". */
  datatype Generation = Generation(text: Option<string>, generationInfo: map<string, Option<string>>)

  /** A value of the llmOutput map: the token usage map or the model identifier. */
  datatype OutputValue = TokenUsage(usage: map<string, int>) | ModeId(modeId: Option<string>)

  datatype LlmResult = LlmResult(generations: seq<seq<Generation>>, llmOutput: map<string, OutputValue>)

  /**
   * The request the service receives. The floating-point sampling settings
   * (temperature, topP, the two penalties) are passed through unchanged and
   * are not part of this model.
   */
  datatype CohereRequest = CohereRequest(
    prompt: string,
    maxTokens: Option<int>,
    topK: Option<int>,
    stopSequences: Option<seq<string>>,
    numGenerations: int,
    isStream: bool,
    isEcho: bool)

  function ToGeneration(t: GeneratedText): (g: Generation)
    ensures g.text == t.text && g.generationInfo == map["id" := t.id]
  {
    Generation(t.text, map["id" := t.id])
  }

  /** The generations of a run of texts, in order. */
  function Group(texts: seq<GeneratedText>): (gs: seq<Generation>)
    ensures |gs| == |texts| && forall i | 0 <= i < |texts| :: gs[i] == ToGeneration(texts[i])
  {
    seq(|texts|, i requires 0 <= i < |texts| => ToGeneration(texts[i]))
  }

  /**
   * List.subList(from, to) on a list that may be null: a negative start or
   * an end past the size is out of bounds, a start after the end is an
   * illegal argument.
   */
  function SubList(xs: Option<seq<GeneratedText>>, from: int, to: int): (r: Result<seq<GeneratedText>>)
    ensures r.Ok? <==> xs.Some? && 0 <= from <= to <= |xs.value|
    ensures r.Ok? ==> r.value == xs.value[from..to]
  {
    if xs.None? then Err(NullPointer)
    else if from < 0 || to > |xs.value| then Err(IndexOutOfBounds)
    else if from > to then Err(IllegalArgument("fromIndex(" + IntToString(from) + ") > toIndex(" + IntToString(to) + ")"))
    else Ok(xs.value[from..to])
  }

  /** The groups of the first `count` prompts: prompt i gets the texts from i*n up to (i+1)*n. */
  function Chunked(texts: Option<seq<GeneratedText>>, count: nat, n: int): Result<seq<seq<Generation>>>
  {
    if count == 0 then Ok([])
    else
      match Chunked(texts, count - 1, n)
      case Err(e) => Err(e)
      case Ok(groups) =>
        match SubList(texts, (count - 1) * n, count * n)
        case Err(e) => Err(e)
        case Ok(choices) => Ok(groups + [Group(choices)])
  }

  lemma MulStep(k: int, n: int)
    ensures (k + 1) * n == k * n + n
  {
  }

  lemma MulNonNegative(k: nat, n: nat)
    ensures k * n >= 0
  {
  }

  lemma MulMonotone(a: nat, b: nat, n: nat)
    requires a <= b
    ensures a * n <= b * n
  {
  }

  /** The texts of prompt i: from i*n up to (i+1)*n. */
  function Chunk(texts: seq<GeneratedText>, i: nat, n: nat): seq<GeneratedText>
    requires (i + 1) * n <= |texts|
  {
    MulStep(i, n);
    MulNonNegative(i, n);
    texts[i * n..(i + 1) * n]
  }

  /** The grouping succeeds exactly when there are no prompts, or the texts cover count*n of them with n not negative. */
  lemma {:induction false} ChunkedSucceeds(texts: Option<seq<GeneratedText>>, count: nat, n: int)
    ensures Chunked(texts, count, n).Ok? <==>
      count == 0 || (texts.Some? && 0 <= n && count * n <= |texts.value|)
  {
    if count > 0 {
      ChunkedSucceeds(texts, count - 1, n);
      var a := (count - 1) * n;
      var b := count * n;
      MulStep(count - 1, n);
      assert b == a + n;
      if n >= 0 {
        MulNonNegative(count - 1, n);
      }
    }
  }

  /** A successful grouping has one list per prompt. */
  lemma {:induction false} ChunkedLength(texts: Option<seq<GeneratedText>>, count: nat, n: int)
    requires Chunked(texts, count, n).Ok?
    ensures |Chunked(texts, count, n).value| == count
  {
    if count > 0 {
      ChunkedLength(texts, count - 1, n);
    }
  }

  /** List i of a successful grouping holds the generations of texts i*n up to (i+1)*n, in order. */
  lemma {:induction false} ChunkedGroup(texts: Option<seq<GeneratedText>>, count: nat, n: int, i: nat)
    requires Chunked(texts, count, n).Ok? && i < count
    ensures texts.Some? && 0 <= n && (i + 1) * n <= |texts.value|
    ensures |Chunked(texts, count, n).value| == count
    ensures Chunked(texts, count, n).value[i] == Group(Chunk(texts.value, i, n))
  {
    ChunkedLength(texts, count, n);
    ChunkedSucceeds(texts, count, n);
    MulMonotone(i + 1, count, n);
    var before := Chunked(texts, count - 1, n).value;
    if i < count - 1 {
      ChunkedGroup(texts, count - 1, n, i);
      assert Chunked(texts, count, n).value[i] == before[i];
    } else {
      MulStep(count - 1, n);
      MulNonNegative(count - 1, n);
    }
  }

  /** A failure for the first k prompts is the failure for all of them. */
  lemma {:induction false} ChunkFailureStays(texts: Option<seq<GeneratedText>>, k: nat, count: nat, n: int)
    requires k <= count && Chunked(texts, k, n).Err?
    ensures Chunked(texts, count, n) == Chunked(texts, k, n)
    decreases count
  {
    if k < count {
      ChunkFailureStays(texts, k, count - 1, n);
    }
  }

  /** The llmOutput map: the token usage and the model identifier. */
  function LlmOutput(tokenUsage: map<string, int>, modeId: Option<string>): (m: map<string, OutputValue>)
    ensures m.Keys == {"token_usage", "mode_id"}
    ensures m["token_usage"] == TokenUsage(tokenUsage) && m["mode_id"] == ModeId(modeId)
  {
    map["token_usage" := TokenUsage(tokenUsage), "mode_id" := ModeId(modeId)]
  }

  /** The inner loop: one generation per chosen text. */
  method GenerationList(subChoices: seq<GeneratedText>) returns (generationList: seq<Generation>)
    ensures generationList == Group(subChoices)
  {
    generationList := [];
    for j := 0 to |subChoices|
      invariant generationList == Group(subChoices[..j])
    {
      var generationInfo := map["id" := subChoices[j].id];
      generationList := generationList + [Generation(subChoices[j].text, generationInfo)];
    }
    assert subChoices[..|subChoices|] == subChoices;
  }

  /**
   * The builder. The setters of numGenerations, isStream and isEcho may be
   * left uncalled (None); their fields then take the builder defaults 1,
   * false and false.
   */
  function Build(client: CohereRequest -> Result<seq<GeneratedText>>, modeId: Option<string>, maxTokens: Option<int>,
                 topK: Option<int>, stopSequences: Option<seq<string>>,
                 numGenerations: Option<int>, isStream: Option<bool>, isEcho: Option<bool>)
    : (m: GenAICohereGenerationBase)
    ensures numGenerations.None? ==> m.numGenerations == 1
    ensures isStream.None? ==> !m.isStream
    ensures isEcho.None? ==> !m.isEcho
    ensures m.client == client && m.modeId == modeId && m.stopSequences == stopSequences
  {
    GenAICohereGenerationBase(client, modeId, maxTokens, topK, stopSequences,
                              if numGenerations.Some? then numGenerations.value else 1,
                              isStream.Some? && isStream.value, isEcho.Some? && isEcho.value)
  }

  /**
   * A model built without setting numGenerations asks the service for one
   * text per request, and a prompt answered with one text gives exactly one
   * generation.
   */
  lemma DefaultBuildOneGeneration(client: CohereRequest -> Result<seq<GeneratedText>>, modeId: Option<string>,
                                  maxTokens: Option<int>, topK: Option<int>, stopSequences: Option<seq<string>>,
                                  isStream: Option<bool>, isEcho: Option<bool>, prompt: string)
    requires var m := Build(client, modeId, maxTokens, topK, stopSequences, None, isStream, isEcho);
             client(m.Request(prompt)).Ok? && |client(m.Request(prompt)).value| == 1
    ensures var m := Build(client, modeId, maxTokens, topK, stopSequences, None, isStream, isEcho);
            var texts := client(m.Request(prompt)).value;
            && m.Request(prompt).numGenerations == 1
            && m.Created(m.Outputs([prompt]), [prompt], map[]) == Ok(LlmResult([[ToGeneration(texts[0])]], LlmOutput(map[], modeId)))
  {
    var m := Build(client, modeId, maxTokens, topK, stopSequences, None, isStream, isEcho);
    var texts := client(m.Request(prompt)).value;
    m.OnePromptOneGroup(prompt);
    assert Group(texts) == [ToGeneration(texts[0])];
  }

  /**
   * The configured model. The service client is a function from a request
   * to the texts it generates, or a failure.
   */
  datatype GenAICohereGenerationBase = GenAICohereGenerationBase(
    client: CohereRequest -> Result<seq<GeneratedText>>,
    modeId: Option<string>,
    maxTokens: Option<int>,
    topK: Option<int>,
    stopSequences: Option<seq<string>>,
    numGenerations: int,
    isStream: bool,
    isEcho: bool)
  {
    /** llmType: the fixed type name of this model. */
    function LlmType(): (name: string)
      ensures name == "genai_cohere"
    {
      "genai_cohere"
    }

    /** createLLMResult as a function. */
    function Created(generatedTexts: Option<seq<GeneratedText>>, prompts: seq<string>, tokenUsage: map<string, int>)
      : Result<LlmResult>
    {
      match Chunked(generatedTexts, |prompts|, numGenerations)
      case Err(e) => Err(e)
      case Ok(groups) => Ok(LlmResult(groups, LlmOutput(tokenUsage, modeId)))
    }

    /** createLLMResult: the nested loops, one list per prompt. */
    method CreateLlmResult(generatedTexts: Option<seq<GeneratedText>>, prompts: seq<string>, tokenUsage: map<string, int>)
      returns (r: Result<LlmResult>)
      ensures r == Created(generatedTexts, prompts, tokenUsage)
    {
      var generations: seq<seq<Generation>> := [];
      for i := 0 to |prompts|
        invariant Chunked(generatedTexts, i, numGenerations) == Ok(generations)
      {
        var subChoices := SubList(generatedTexts, i * numGenerations, (i + 1) * numGenerations);
        if subChoices.Err? {
          ChunkFailureStays(generatedTexts, i + 1, |prompts|, numGenerations);
          return Err(subChoices.error);
        }
        var generationList := GenerationList(subChoices.value);
        generations := generations + [generationList];
      }
      var llmOutput := map["token_usage" := TokenUsage(tokenUsage)];
      llmOutput := llmOutput["mode_id" := ModeId(modeId)];
      r := Ok(LlmResult(generations, llmOutput));
    }

    /** The request for a prompt: the configured stop sequences, never the caller's. */
    function Request(prompt: string): (q: CohereRequest)
      ensures q.prompt == prompt && q.stopSequences == stopSequences && q.numGenerations == numGenerations
    {
      CohereRequest(prompt, maxTokens, topK, stopSequences, numGenerations, isStream, isEcho)
    }

    /**
     * The texts innerGenerate obtains: any exception inside the try block
     * (no first prompt, a failing service) leaves them null.
     */
    function Outputs(prompts: seq<string>): Option<seq<GeneratedText>>
    {
      if prompts == [] then None
      else
        match client(Request(prompts[0]))
        case Err(_) => None
        case Ok(texts) => Some(texts)
    }

    /** innerGenerate(prompts, stop): the stop argument is not used. */
    method InnerGenerate(prompts: seq<string>, stop: Option<seq<string>>) returns (r: Result<LlmResult>)
      ensures r == Created(Outputs(prompts), prompts, map[])
    {
      var outputs: Option<seq<GeneratedText>> := None;
      if prompts != [] {
        var request := Request(prompts[0]);
        var response := client(request);
        if response.Ok? {
          outputs := Some(response.value);
        }
      }
      r := CreateLlmResult(outputs, prompts, map[]);
    }

    /** asyncInnerGenerate always throws. */
    function AsyncInnerGenerate(prompts: seq<string>, stop: Option<seq<string>>): (r: Result<LlmResult>)
      ensures r == Err(UnsupportedOperation("Unimplemented method 'asyncInnerGenerate'"))
    {
      Err(UnsupportedOperation("Unimplemented method 'asyncInnerGenerate'"))
    }

    /** A single prompt whose request yields exactly numGenerations texts gives one list of their generations. */
    lemma OnePromptOneGroup(prompt: string)
      requires client(Request(prompt)).Ok? && |client(Request(prompt)).value| == numGenerations
      ensures Created(Outputs([prompt]), [prompt], map[]) ==
        Ok(LlmResult([Group(client(Request(prompt)).value)], LlmOutput(map[], modeId)))
    {
      var texts := client(Request(prompt)).value;
      assert Outputs([prompt]) == Some(texts);
      assert 0 * numGenerations == 0 && 1 * numGenerations == numGenerations;
      assert texts[0..numGenerations] == texts;
      assert SubList(Some(texts), 0, numGenerations) == Ok(texts);
      assert Chunked(Some(texts), 1, numGenerations) == Ok([] + [Group(texts)]);
      assert [] + [Group(texts)] == [Group(texts)];
      assert |[prompt]| == 1;
    }

    /** Only the first prompt is sent, so a second prompt finds no texts left when the service returned numGenerations of them. */
    lemma LaterPromptsFail(prompts: seq<string>)
      requires |prompts| >= 2 && numGenerations > 0
      requires client(Request(prompts[0])).Ok? && |client(Request(prompts[0])).value| == numGenerations
      ensures Created(Outputs(prompts), prompts, map[]).Err?
    {
      ChunkedSucceeds(Outputs(prompts), |prompts|, numGenerations);
      MulMonotone(2, |prompts|, numGenerations);
    }

    /** A service failure is swallowed, and grouping the null texts then throws for any prompt. */
    lemma FailedServiceThrows(prompts: seq<string>)
      requires prompts != [] && client(Request(prompts[0])).Err?
      ensures Created(Outputs(prompts), prompts, map[]) == Err(NullPointer)
    {
      ChunkFailureStays(None, 1, |prompts|, numGenerations);
    }

    /** No prompts: nothing is sent and the result has no generations. */
    lemma NoPromptsNoGenerations()
      ensures Created(Outputs([]), [], map[]) == Ok(LlmResult([], LlmOutput(map[], modeId)))
    {
    }
  }
}
