/**
 * The HTTP request chain (chain/http/base/HttpRequestChain.java): it fetches
 * one URL, built once from a base URL and form-encoded query parameters, and
 * asks the model to answer the question from the response.
 */
module HttpChain {
  import opened Common
  import opened Utils
  import opened HttpPrompt
  import opened FormEncoding

  const QUESTION_KEY: string := "question"
  const OUTPUT_KEY: string := "output"

  // ---------------------------------------------------------------------
  // buildURLParameters

  /** The parameters with a value, in iteration order, each value as its toString. */
  function Present(parameters: seq<(string, Value)>): (r: seq<(string, string)>)
    ensures |r| <= |parameters|
    decreases |parameters|
  {
    if parameters == [] then []
    else
      var init := parameters[..|parameters| - 1];
      var last := parameters[|parameters| - 1];
      Present(init) + if last.1.Null? then [] else [(last.0, ToStr(last.1))]
  }

  /** One "key=value" pair of the query, both sides form-encoded. */
  function Pair(p: (string, string)): string
  {
    FormEncode(p.0) + "=" + FormEncode(p.1)
  }

  function Pairs(present: seq<(string, string)>): (r: seq<string>)
    ensures |r| == |present| && forall i | 0 <= i < |present| :: r[i] == Pair(present[i])
  {
    seq(|present|, i requires 0 <= i < |present| => Pair(present[i]))
  }

  /**
   * The URL the chain fetches: the base URL, and when some parameter has a
   * value, "?" and the "&"-joined pairs.
   */
  function UrlWithParameters(apiURL: string, parameters: seq<(string, Value)>): string
  {
    var pairs := Pairs(Present(parameters));
    if pairs == [] then apiURL else apiURL + "?" + Join("&", pairs)
  }

  /** Each pair followed by "&", as the builder accumulates them. */
  function Terminated(pairs: seq<string>): (t: string)
    ensures pairs != [] ==> |t| > 0 && t[|t| - 1] == '&'
    decreases |pairs|
  {
    if pairs == [] then "" else Terminated(pairs[..|pairs| - 1]) + pairs[|pairs| - 1] + "&"
  }

  /** The builder's text before the final deleteCharAt. */
  function BuilderText(apiURL: string, parameters: seq<(string, Value)>): string
  {
    apiURL + "?" + Terminated(Pairs(Present(parameters)))
  }

  /** The accumulated text without its last '&' is the join. */
  lemma {:induction false} TerminatedIsJoin(pairs: seq<string>)
    requires pairs != []
    ensures Terminated(pairs) == Join("&", pairs) + "&"
    decreases |pairs|
  {
    var init, last := pairs[..|pairs| - 1], pairs[|pairs| - 1];
    assert Terminated(pairs) == Terminated(init) + last + "&";
    if init != [] {
      TerminatedIsJoin(init);
      JoinSnoc("&", init, last);
      assert init + [last] == pairs;
      assert Join("&", pairs) == Join("&", init) + "&" + last;
    } else {
      assert pairs == [last];
      assert Join("&", pairs) == last;
      assert Terminated(init) == "";
    }
  }

  /**
   * For a non-empty parameter map, deleting the builder's last character
   * gives the URL: that character is the '&' after the last pair, or the
   * '?' itself when every value is null, so the result is one character
   * shorter than the builder.
   */
  lemma DeleteLastGivesUrl(apiURL: string, parameters: seq<(string, Value)>)
    ensures var b := BuilderText(apiURL, parameters);
      b[..|b| - 1] == UrlWithParameters(apiURL, parameters)
      && b[|b| - 1] == (if Present(parameters) == [] then '?' else '&')
  {
    var pairs := Pairs(Present(parameters));
    var b := BuilderText(apiURL, parameters);
    if pairs != [] {
      TerminatedIsJoin(pairs);
      assert b == (apiURL + "?" + Join("&", pairs)) + "&";
    } else {
      assert b == apiURL + "?";
    }
  }

  /** Every value null: the URL is the base URL. */
  lemma AllNullKeepsBase(apiURL: string, parameters: seq<(string, Value)>)
    requires forall i | 0 <= i < |parameters| :: parameters[i].1.Null?
    ensures UrlWithParameters(apiURL, parameters) == apiURL
  {
    NothingPresent(parameters);
  }

  lemma {:induction false} NothingPresent(parameters: seq<(string, Value)>)
    requires forall i | 0 <= i < |parameters| :: parameters[i].1.Null?
    ensures Present(parameters) == []
    decreases |parameters|
  {
    if parameters != [] {
      NothingPresent(parameters[..|parameters| - 1]);
    }
  }

  lemma PresentSnoc(prefix: seq<(string, Value)>, entry: (string, Value))
    ensures Present(prefix + [entry]) == Present(prefix) + if entry.1.Null? then [] else [(entry.0, ToStr(entry.1))]
  {
    var all := prefix + [entry];
    assert all[..|all| - 1] == prefix;
  }

  lemma PairsSnoc(present: seq<(string, string)>, x: (string, string))
    ensures Pairs(present + [x]) == Pairs(present) + [Pair(x)]
  {
  }

  lemma TerminatedSnoc(pairs: seq<string>, x: string)
    ensures Terminated(pairs + [x]) == Terminated(pairs) + (x + "&")
  {
    assert (pairs + [x])[..|pairs|] == pairs;
  }

  /** One more entry adds its pair and a '&' to the builder, or nothing when its value is null. */
  lemma BuilderStep(apiURL: string, prefix: seq<(string, Value)>, entry: (string, Value))
    ensures BuilderText(apiURL, prefix + [entry]) ==
      BuilderText(apiURL, prefix) + if entry.1.Null? then "" else Pair((entry.0, ToStr(entry.1))) + "&"
  {
    PresentSnoc(prefix, entry);
    if !entry.1.Null? {
      var present := Present(prefix);
      var x := (entry.0, ToStr(entry.1));
      assert Present(prefix + [entry]) == present + [x];
      PairsSnoc(present, x);
      TerminatedSnoc(Pairs(present), Pair(x));
      assert Terminated(Pairs(present + [x])) == Terminated(Pairs(present)) + (Pair(x) + "&");
      Regroup(apiURL + "?", Terminated(Pairs(present)), Pair(x) + "&", Terminated(Pairs(present)) + (Pair(x) + "&"));
      assert BuilderText(apiURL, prefix + [entry]) == (apiURL + "?") + Terminated(Pairs(present + [x]));
      assert BuilderText(apiURL, prefix) == (apiURL + "?") + Terminated(Pairs(present));
    } else {
      assert Present(prefix + [entry]) == Present(prefix);
    }
  }

  /** The body of the loop for one entry. */
  method AppendParameter(urlBuilder: string, entry: (string, Value)) returns (b: string)
    ensures b == urlBuilder + if entry.1.Null? then "" else Pair((entry.0, ToStr(entry.1))) + "&"
  {
    b := urlBuilder;
    var key := entry.0;
    var value := entry.1;
    if !value.Null? {
      var encodedKey := FormEncode(key);
      var encodedValue := FormEncode(ToStr(value));
      b := b + encodedKey + "=" + encodedValue + "&";
      assert b == urlBuilder + (Pair((key, ToStr(value))) + "&");
    }
  }

  /** buildURLParameters(apiURL, parameters); a null map throws on isEmpty(). */
  method BuildUrlParameters(apiURL: string, parameters: Option<seq<(string, Value)>>) returns (r: Result<string>)
    ensures parameters.None? ==> r == Err(NullPointer)
    ensures parameters.Some? ==> r == Ok(UrlWithParameters(apiURL, parameters.value))
  {
    if parameters.None? {
      return Err(NullPointer);
    }
    var entries := parameters.value;
    var urlBuilder := apiURL;
    if entries != [] {
      urlBuilder := urlBuilder + "?";
      assert entries[..0] == [];
      for i := 0 to |entries|
        invariant urlBuilder == BuilderText(apiURL, entries[..i])
      {
        assert entries[..i + 1] == entries[..i] + [entries[i]];
        BuilderStep(apiURL, entries[..i], entries[i]);
        urlBuilder := AppendParameter(urlBuilder, entries[i]);
      }
      assert entries[..|entries|] == entries;
      DeleteLastGivesUrl(apiURL, entries);
      urlBuilder := urlBuilder[..|urlBuilder| - 1];
    }
    r := Ok(urlBuilder);
  }

  // ---------------------------------------------------------------------
  // Reading the query back

  /** The pieces of a text between the occurrences of a separator. */
  function Split(s: string, sep: char): (r: seq<string>)
    ensures |r| >= 1
    decreases |s|
  {
    if s == [] then [""]
    else
      var rest := Split(s[1..], sep);
      if s[0] == sep then [""] + rest else [[s[0]] + rest[0]] + rest[1..]
  }

  lemma {:induction false} SplitPlain(s: string, sep: char)
    requires sep !in s
    ensures Split(s, sep) == [s]
    decreases |s|
  {
    if s != [] {
      SplitPlain(s[1..], sep);
      assert [s[0]] + s[1..] == s;
    }
  }

  lemma {:induction false} SplitFirstPiece(p: string, sep: char, rest: string)
    requires sep !in p
    ensures Split(p + [sep] + rest, sep) == [p] + Split(rest, sep)
    decreases |p|
  {
    if p == [] {
      assert ([] + [sep] + rest)[1..] == rest;
    } else {
      SplitFirstPiece(p[1..], sep, rest);
      assert (p + [sep] + rest)[1..] == p[1..] + [sep] + rest;
      assert [p[0]] + p[1..] == p;
    }
  }

  /** Splitting a join of separator-free pieces on the separator gives the pieces back. */
  lemma {:induction false} SplitJoin(parts: seq<string>, sep: char)
    requires parts != [] && forall i | 0 <= i < |parts| :: sep !in parts[i]
    ensures Split(Join([sep], parts), sep) == parts
    decreases |parts|
  {
    if |parts| == 1 {
      SplitPlain(parts[0], sep);
    } else {
      SplitJoin(parts[1..], sep);
      SplitFirstPiece(parts[0], sep, Join([sep], parts[1..]));
      assert [parts[0]] + parts[1..] == parts;
    }
  }

  /**
   * The query after the '?' splits on '&' into one piece per parameter with
   * a value, in order, and each piece splits on '=' into the encoded key and
   * the encoded value, from which the UTF-8 bytes of both are recovered.
   */
  lemma QueryReadsBack(apiURL: string, parameters: seq<(string, Value)>, i: nat)
    requires i < |Present(parameters)|
    ensures var url := UrlWithParameters(apiURL, parameters);
      var pieces := Split(url[|apiURL| + 1..], '&');
      |pieces| == |Present(parameters)|
      && Split(pieces[i], '=') == [FormEncode(Present(parameters)[i].0), FormEncode(Present(parameters)[i].1)]
      && DecodeBytes(FormEncode(Present(parameters)[i].0)) == Some(Utf8String(Present(parameters)[i].0))
      && DecodeBytes(FormEncode(Present(parameters)[i].1)) == Some(Utf8String(Present(parameters)[i].1))
  {
    var present := Present(parameters);
    var pairs := Pairs(present);
    var url := UrlWithParameters(apiURL, parameters);
    forall j | 0 <= j < |pairs| ensures '&' !in pairs[j] {
      EncodedHasNoSeparator(present[j].0);
      EncodedHasNoSeparator(present[j].1);
    }
    assert url[|apiURL| + 1..] == Join("&", pairs);
    SplitJoin(pairs, '&');
    EncodedHasNoSeparator(present[i].0);
    EncodedHasNoSeparator(present[i].1);
    SplitPlain(FormEncode(present[i].1), '=');
    SplitFirstPiece(FormEncode(present[i].0), '=', FormEncode(present[i].1));
    assert pairs[i] == FormEncode(present[i].0) + ['='] + FormEncode(present[i].1);
    FormDecodeRecoversBytes(present[i].0);
    FormDecodeRecoversBytes(present[i].1);
  }

  // ---------------------------------------------------------------------
  // The chain

  /** Request headers: a Map<String, String> whose values may be null. */
  type Headers = map<string, Option<string>>

  /**
   * The request wrapper: its headers and the GET it performs, which returns
   * the response body or fails. The transport is not part of this model.
   */
  datatype TextRequestsWrapper = TextRequestsWrapper(
    headers: Option<Headers>,
    fetch: (Option<Headers>, string) -> Result<string>)
  {
    function Get(url: string): Result<string>
    {
      fetch(headers, url)
    }
  }

  /** The fields are final: a call changes nothing. */
  datatype HttpRequestChain = HttpRequestChain(apiAnswerChain: LlmChain, requestsWrapper: TextRequestsWrapper, apiUrl: string)
  {
    function ChainType(): string
    {
      "httpquest_chain"
    }

    function InputKeys(): seq<string>
    {
      [QUESTION_KEY]
    }

    function OutputKeys(): seq<string>
    {
      [OUTPUT_KEY]
    }

    /** The inputs of the answering prediction. */
    function AnswerInputs(question: Value, apiResponse: string): map<string, Value>
    {
      map[QUESTION_KEY := question, "api_url" := Str(apiUrl), "api_response" := Str(apiResponse)]
    }

    /**
     * innerCall: one GET on the URL as stored (the strip() result is
     * discarded), then the answer, untrimmed, under "output". Map.of
     * rejects a null question, after the GET.
     */
    function InnerCall(inputs: map<string, Value>): (r: Result<map<string, string>>)
      ensures requestsWrapper.Get(apiUrl).Err? ==> r == Err(requestsWrapper.Get(apiUrl).error)
      ensures requestsWrapper.Get(apiUrl).Ok? && Get(inputs, QUESTION_KEY).Null? ==> r == Err(NullPointer)
      ensures requestsWrapper.Get(apiUrl).Ok? && !Get(inputs, QUESTION_KEY).Null? ==> r.Ok?
      ensures r.Ok? ==> (QUESTION_KEY in inputs && r.value.Keys == {OUTPUT_KEY}
        && r.value[OUTPUT_KEY] == apiAnswerChain.Predict(AnswerInputs(inputs[QUESTION_KEY], requestsWrapper.Get(apiUrl).value)))
    {
      var question := Get(inputs, QUESTION_KEY);
      match requestsWrapper.Get(apiUrl)
      case Err(e) => Err(e)
      case Ok(apiResponse) =>
        if question.Null? then Err(NullPointer)
        else Ok(map[OUTPUT_KEY := apiAnswerChain.Predict(AnswerInputs(question, apiResponse))])
    }

    /** The answering inputs supply exactly the variables the response prompt declares. */
    lemma AnswerInputsMatchPrompt(question: Value, apiResponse: string)
      ensures AnswerInputs(question, apiResponse).Keys == set v | v in HTTPREQUEST_RESPONSE_PROMPT.inputVariables
    {
      EachVariableOnce(0);
      assert AnswerInputs(question, apiResponse).Keys == {"question", "api_url", "api_response"};
    }
  }

  /** usingApiURL(llm, apiURL, parameters, headers, apiResponsePrompt): the URL is built once, here. */
  method UsingApiUrlWithParameters(llm: (Template, map<string, Value>) -> string, apiURL: string,
                                   parameters: Option<seq<(string, Value)>>, headers: Option<Headers>,
                                   apiResponsePrompt: Template,
                                   fetch: (Option<Headers>, string) -> Result<string>)
    returns (r: Result<HttpRequestChain>)
    ensures parameters.None? ==> r == Err(NullPointer)
    ensures parameters.Some? ==> r == Ok(HttpRequestChain(LlmChain(apiResponsePrompt, llm), TextRequestsWrapper(headers, fetch),
                                                          UrlWithParameters(apiURL, parameters.value)))
  {
    var apiURLWithParameters := BuildUrlParameters(apiURL, parameters);
    if apiURLWithParameters.Err? {
      return Err(apiURLWithParameters.error);
    }
    var requestsWrapper := TextRequestsWrapper(headers, fetch);
    var getAnswerChain := LlmChain(apiResponsePrompt, llm);
    r := Ok(HttpRequestChain(getAnswerChain, requestsWrapper, apiURLWithParameters.value));
  }

  /**
   * usingApiURL(llm, apiURL, parameters): no headers and the library's
   * API_RESPONSE_PROMPT, which is given here as a parameter because the
   * library is not part of this model.
   */
  method UsingApiUrlDefault(llm: (Template, map<string, Value>) -> string, apiURL: string,
                            parameters: Option<seq<(string, Value)>>, libraryResponsePrompt: Template,
                            fetch: (Option<Headers>, string) -> Result<string>)
    returns (r: Result<HttpRequestChain>)
    ensures parameters.None? ==> r == Err(NullPointer)
    ensures parameters.Some? ==> r == Ok(HttpRequestChain(LlmChain(libraryResponsePrompt, llm), TextRequestsWrapper(None, fetch),
                                                          UrlWithParameters(apiURL, parameters.value)))
  {
    r := UsingApiUrlWithParameters(llm, apiURL, parameters, None, libraryResponsePrompt, fetch);
  }

  /** usingApiURL(llm, apiURL, headers, apiResponsePrompt): the URL is used verbatim. */
  function UsingApiUrl(llm: (Template, map<string, Value>) -> string, apiURL: string, headers: Option<Headers>,
                       apiResponsePrompt: Template, fetch: (Option<Headers>, string) -> Result<string>)
    : (c: HttpRequestChain)
    ensures c.apiUrl == apiURL && c.requestsWrapper.headers == headers && c.apiAnswerChain.prompt == apiResponsePrompt
  {
    HttpRequestChain(LlmChain(apiResponsePrompt, llm), TextRequestsWrapper(headers, fetch), apiURL)
  }
}
