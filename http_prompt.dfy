/**
 * The prompt that turns an API response into an answer
 * (chain/http/prompt/Prompt.java): a text block with the placeholders
 * {question}, {api_url} and {api_response}.
 */
module HttpPrompt {
  import opened Common
  import opened Utils
  import opened TemplateText

  const QUESTION_LABEL: string := "Question:"
  const LINE_BREAK: string := "\n\n"
  const RESPONSE_INTRO: string := "\n\nHere is " + "the response " + "from the API:\n\n"
  const SUMMARY_REQUEST: string := "\n\nSummarize " + "this response " + "to answer the " + "original " + "question.\n\n"
  const SUMMARY_LABEL: string := "Summary:"

  const PROSE: seq<string> := [QUESTION_LABEL, LINE_BREAK, RESPONSE_INTRO, SUMMARY_REQUEST + SUMMARY_LABEL]
  const VARIABLES: seq<string> := ["question", "api_url", "api_response"]

  /** HTTPREQUEST_RESPONSE_PROMPT_TEMPLATE, the text block with its indentation removed. */
  const HTTPREQUEST_RESPONSE_PROMPT_TEMPLATE: string := Render(Interleave(PROSE, VARIABLES))

  /** HTTPREQUEST_RESPONSE_PROMPT */
  const HTTPREQUEST_RESPONSE_PROMPT: Template := Declared(VARIABLES, HTTPREQUEST_RESPONSE_PROMPT_TEMPLATE, NoParser)

  /** The prose of the text block holds no '{' and the variable names hold no brace. */
  lemma PlainPromptParts()
    ensures PlainParts(PROSE, VARIABLES)
  {
    PlainResponseIntro();
    PlainSummaryRequest();
    forall t | t in PROSE ensures '{' !in t {
    }
    assert PlainName("question") && PlainName("api_url") && PlainName("api_response");
  }

  /** The response introduction holds no brace. */
  lemma PlainResponseIntro()
    ensures '{' !in RESPONSE_INTRO
  {
    assert '{' !in "\n\nHere is " && '{' !in "the response " && '{' !in "from the API:\n\n";
  }

  /** The closing request and label hold no brace. */
  lemma PlainSummaryRequest()
    ensures '{' !in PROSE[3]
  {
    assert '{' !in "\n\nSummarize " && '{' !in "this response " && '{' !in "to answer the ";
    assert '{' !in "original " && '{' !in "question.\n\n" && '{' !in SUMMARY_LABEL;
  }

  /**
   * The template declares exactly question, api_url and api_response, in that
   * order, and each of them occurs exactly once as a placeholder in the text.
   */
  lemma EachVariableOnce(k: nat)
    requires k < |VARIABLES|
    ensures HTTPREQUEST_RESPONSE_PROMPT.inputVariables == ["question", "api_url", "api_response"]
    ensures OccursOnlyAt(HTTPREQUEST_RESPONSE_PROMPT.text, Placeholder(VARIABLES[k]),
                         |Render(Interleave(PROSE[..k + 1], VARIABLES[..k]))|)
  {
    PlainPromptParts();
    InterleaveOnce(PROSE, VARIABLES, k);
  }

  /** The text holds no placeholder other than the three declared ones. */
  lemma NoOtherPlaceholder(v: string)
    requires PlainName(v) && v !in VARIABLES
    ensures !Contains(HTTPREQUEST_RESPONSE_PROMPT.text, Placeholder(v))
  {
    PlainPromptParts();
    InterleaveHolds(PROSE, VARIABLES, v);
  }

  /** The text begins with "Question:{question}" and ends with "Summary:", with no newline after it. */
  lemma PromptBeginsAndEnds()
    ensures var t := HTTPREQUEST_RESPONSE_PROMPT_TEMPLATE;
      |t| >= 19 && t[..19] == "Question:{question}" && t[|t| - 8..] == "Summary:"
  {
    PromptBegins();
    PromptEnds();
  }

  lemma PromptBegins()
    ensures var t := HTTPREQUEST_RESPONSE_PROMPT_TEMPLATE;
      |t| >= 19 && t[..19] == "Question:{question}"
  {
    RenderStartsWith(PROSE, VARIABLES);
    FirstPieces();
  }

  /** The first prose piece and the first placeholder. */
  lemma FirstPieces()
    ensures PROSE[0] + Placeholder(VARIABLES[0]) == "Question:{question}"
  {
    var first := QUESTION_LABEL + Placeholder("question");
    assert Placeholder("question") == "{question}";
    assert |first| == 19;
    forall i | 0 <= i < 19 ensures first[i] == "Question:{question}"[i] {
      if i < 9 { assert first[i] == QUESTION_LABEL[i]; } else { assert first[i] == "{question}"[i - 9]; }
    }
  }

  lemma PromptEnds()
    ensures var t := HTTPREQUEST_RESPONSE_PROMPT_TEMPLATE;
      |t| >= 8 && t[|t| - 8..] == "Summary:"
  {
    var t := HTTPREQUEST_RESPONSE_PROMPT_TEMPLATE;
    RenderEndsWith(PROSE, VARIABLES);
    var last := PROSE[|PROSE| - 1];
    assert last == SUMMARY_REQUEST + SUMMARY_LABEL;
    assert last[|last| - 8..] == SUMMARY_LABEL;
    assert t[|t| - 8..] == last[|last| - 8..];
  }
}
