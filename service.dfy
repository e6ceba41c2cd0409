/**
 * GenAILangChainService: the orchestration behind the REST endpoints. A
 * request names one chain ("llm", "httpRequest" or "oracleDb") or a list of
 * them; each chain is built from its payload and run, and in the multi-chain
 * case every result is substituted into the top-level prompt under the
 * chain's output variable before a final completion is asked for.
 *
 * The language model, the database connection and the HTTP transport are
 * the parameters of a Services value; nothing here performs I/O.
 */
module Service {
  import opened Common
  import opened Utils
  import FormEncoding
  import Base64
  import OracleDb
  import SqlPrompt
  import SqlChain
  import HttpPrompt
  import HttpChain

  // ---------------------------------------------------------------------
  // Payloads (model/*.java)

  /** ModelParameters without its Double fields (temperature, penalties, topP). */
  datatype ModelParameters = ModelParameters(
    modelId: Option<string>, configProfile: Option<string>, compartmentId: Option<string>, region: Option<string>,
    endpoint: Option<string>, configLocation: Option<string>, maxTokens: Option<int>, batchSize: Option<int>,
    isEcho: Option<bool>, isStream: Option<bool>, stopSequences: Option<seq<string>>, topK: Option<int>)

  datatype HttpRequestPayload = HttpRequestPayload(
    authorizationToken: Option<string>, username: Option<string>, pwd: Option<string>, apiURL: string,
    contentType: Option<string>)

  datatype OracleDbRequestPayload = OracleDbRequestPayload(
    apiURL: Option<string>, dbConnection: string, dbUserName: string, dbPwd: string, sqlCmd: Option<string>)

  /** One chain of a request; a None field is a null reference. */
  datatype RequestChainPayload = RequestChainPayload(
    chainType: Option<string>, prompt: string, modelParameters: ModelParameters,
    httpRequest: Option<HttpRequestPayload>, dbRequest: Option<OracleDbRequestPayload>,
    properties: Option<seq<Property>>, outputVariable: Option<string>)

  datatype RequestPayload = RequestPayload(prompt: string, modelParameters: ModelParameters, properties: Option<seq<Property>>)

  datatype RequestMultipleChainsPayload = RequestMultipleChainsPayload(
    prompt: string, modelParameters: ModelParameters, chains: Option<seq<RequestChainPayload>>,
    properties: Option<seq<Property>>)

  /**
   * What the service reaches outside itself: getLLM (which builds and
   * initialises a client and may throw), the JDBC driver behind
   * OracleDatabase.fromUri, and the HTTP GET of the request wrapper.
   */
  datatype Services = Services(
    getLlm: ModelParameters -> Result<(Template, map<string, Value>) -> string>,
    connect: (string, string, string) -> Result<OracleDb.Connection>,
    fetch: (Option<HttpChain.Headers>, string) -> Result<string>)

  /** The constant names of the ChainType enum. */
  const CHAIN_TYPES: seq<string> := ["llm", "httpRequest", "oracleDb"]

  /** The tags the switch statements accept once lower-cased. */
  const LOWER_TAGS: set<string> := {"llm", "httprequest", "oracledb"}

  // ---------------------------------------------------------------------
  // Property maps

  /** A HashMap filled with put(key, value) for each property in list order. */
  function PropertyMap(properties: seq<Property>): map<string, Value>
    decreases |properties|
  {
    if properties == [] then map[]
    else
      var last := properties[|properties| - 1];
      PropertyMap(properties[..|properties| - 1])[last.key := Str(last.value)]
  }

  /** The map holds exactly the keys of the properties. */
  lemma {:induction false} PropertyMapKeys(properties: seq<Property>)
    ensures PropertyMap(properties).Keys == set p | p in properties :: p.key
    decreases |properties|
  {
    if properties != [] {
      var init, last := properties[..|properties| - 1], properties[|properties| - 1];
      PropertyMapKeys(init);
      assert properties == init + [last];
      assert (set p | p in properties :: p.key) == (set p | p in init :: p.key) + {last.key};
    }
  }

  /** A key holds the value of its last property: a later duplicate overwrites an earlier one. */
  lemma {:induction false} PropertyMapLastWins(properties: seq<Property>, i: nat)
    requires i < |properties|
    requires forall j | i < j < |properties| :: properties[j].key != properties[i].key
    ensures properties[i].key in PropertyMap(properties)
    ensures PropertyMap(properties)[properties[i].key] == Str(properties[i].value)
    decreases |properties|
  {
    if i < |properties| - 1 {
      PropertyMapLastWins(properties[..|properties| - 1], i);
    }
  }

  /** The forEach(put) loop of invokeLLM, invokeLLMChain and invokeOracelDatabaseChain. */
  method PutAll(properties: seq<Property>) returns (m: map<string, Value>)
    ensures m == PropertyMap(properties)
  {
    m := map[];
    for i := 0 to |properties|
      invariant m == PropertyMap(properties[..i])
    {
      assert properties[..i + 1][..i] == properties[..i];
      m := m[properties[i].key := Str(properties[i].value)];
    }
    assert properties[..|properties|] == properties;
  }

  /** The variables of a prompt: a null property list gives an empty map. */
  function PromptProperties(properties: Option<seq<Property>>): map<string, Value>
  {
    match properties
    case None => map[]
    case Some(list) => PropertyMap(list)
  }

  /**
   * The keys of a property map in the order they were first put. HashMap
   * iteration order is its own; this model enumerates in insertion order.
   */
  function FirstKeys(properties: seq<Property>): (keys: seq<string>)
    ensures forall i, j | 0 <= i < j < |keys| :: keys[i] != keys[j]
    decreases |properties|
  {
    if properties == [] then []
    else
      var keys := FirstKeys(properties[..|properties| - 1]);
      var key := properties[|properties| - 1].key;
      if key in keys then keys else keys + [key]
  }

  /** Every key of the map is enumerated, and nothing else. */
  lemma {:induction false} FirstKeysCover(properties: seq<Property>)
    ensures forall k :: k in FirstKeys(properties) <==> k in PropertyMap(properties)
    decreases |properties|
  {
    if properties != [] {
      FirstKeysCover(properties[..|properties| - 1]);
    }
  }

  /** The entries of a map in the given key order. */
  function Entries(m: map<string, Value>, keys: seq<string>): (entries: seq<(string, Value)>)
    requires forall k | k in keys :: k in m
    ensures |entries| == |keys|
    ensures forall i | 0 <= i < |keys| :: entries[i] == (keys[i], m[keys[i]])
  {
    seq(|keys|, i requires 0 <= i < |keys| => (keys[i], m[keys[i]]))
  }

  /** The entry sequence an iteration over the sqlProperties map produces. */
  function SqlEntries(properties: seq<Property>): seq<(string, Value)>
  {
    FirstKeysCover(properties);
    Entries(PropertyMap(properties), FirstKeys(properties))
  }

  /** The enumeration lists each key of the map once, with its value. */
  lemma SqlEntriesEnumerate(properties: seq<Property>)
    ensures var entries := SqlEntries(properties);
      (forall i, j | 0 <= i < j < |entries| :: entries[i].0 != entries[j].0)
      && (forall i | 0 <= i < |entries| :: entries[i].0 in PropertyMap(properties)
                                          && PropertyMap(properties)[entries[i].0] == entries[i].1)
      && (forall k | k in PropertyMap(properties) :: exists i | 0 <= i < |entries| :: entries[i].0 == k)
  {
    var entries := SqlEntries(properties);
    var keys := FirstKeys(properties);
    FirstKeysCover(properties);
    forall k | k in PropertyMap(properties)
      ensures exists i | 0 <= i < |entries| :: entries[i].0 == k
    {
      var i :| 0 <= i < |keys| && keys[i] == k;
      assert entries[i].0 == k;
    }
  }

  // ---------------------------------------------------------------------
  // The Authorization header

  /** The as-written condition for building a Basic token. */
  predicate UsesBasicAuth(token: Option<string>, username: Option<string>, pwd: Option<string>)
  {
    IsBlank(token) && !IsBlank(username) && IsBlank(pwd)
  }

  /** The user-pass text of the Basic credentials: a null password is written "null". */
  function Credentials(username: string, pwd: Option<string>): string
  {
    username + ":" + JavaString(pwd)
  }

  /**
   * The Authorization value: a blank token, a non-blank user name and a
   * blank password give "Basic " and the Base64 of the UTF-8 bytes of
   * "user:password"; in every other case the token is used as given.
   */
  function AuthToken(token: Option<string>, username: Option<string>, pwd: Option<string>): (t: Option<string>)
    ensures UsesBasicAuth(token, username, pwd) ==>
      t.Some? && |t.value| >= 6 && t.value[..6] == "Basic "
      && Base64.Decode(t.value[6..]) == Some(FormEncoding.Utf8String(Credentials(username.value, pwd)))
    ensures !IsBlank(pwd) ==> t == token
    ensures !UsesBasicAuth(token, username, pwd) ==> t == token
  {
    if UsesBasicAuth(token, username, pwd) then
      var encoded := Base64.Encode(FormEncoding.Utf8String(Credentials(username.value, pwd)));
      Base64.DecodeEncode(FormEncoding.Utf8String(Credentials(username.value, pwd)));
      assert ("Basic " + encoded)[6..] == encoded;
      Some("Basic " + encoded)
    else token
  }

  /** The headers of the HTTP chain: exactly Authorization and Content-Type, either possibly null. */
  function RequestHeaders(request: HttpRequestPayload): (h: HttpChain.Headers)
    ensures h.Keys == {"Authorization", "Content-Type"}
    ensures h["Content-Type"] == request.contentType
    ensures h["Authorization"] == AuthToken(request.authorizationToken, request.username, request.pwd)
  {
    map["Authorization" := AuthToken(request.authorizationToken, request.username, request.pwd),
        "Content-Type" := request.contentType]
  }

  // ---------------------------------------------------------------------
  // The three kinds of chain, as functions of the payload

  /** invokeLLM / invokeLLMChain: a PromptTemplate.fromTemplate of the prompt, run with the property map. */
  function LlmRun(services: Services, parameters: ModelParameters, prompt: string, properties: Option<seq<Property>>)
    : Result<string>
  {
    match services.getLlm(parameters)
    case Err(e) => Err(e)
    case Ok(llm) => Ok(LlmChain(FromText(prompt), llm).Predict(PromptProperties(properties)))
  }

  /**
   * invokeHTTPRequestChain: every exception (from getLLM, a null
   * httpRequest, a null property list in the merge, the GET) is swallowed
   * and the result is null.
   */
  function HttpRequestResult(services: Services, chain: RequestChainPayload): Option<string>
  {
    match services.getLlm(chain.modelParameters)
    case Err(_) => None
    case Ok(llm) =>
      match chain.httpRequest
      case None => None
      case Some(request) =>
        match chain.properties
        case None => None
        case Some(properties) =>
          var question := Merged(properties, chain.prompt);
          var httpChain := HttpChain.UsingApiUrl(llm, request.apiURL, Some(RequestHeaders(request)),
                                                 HttpPrompt.HTTPREQUEST_RESPONSE_PROMPT, services.fetch);
          match httpChain.InnerCall(map[HttpChain.QUESTION_KEY := Str(question)])
          case Err(_) => None
          case Ok(outputs) => Some(outputs[HttpChain.OUTPUT_KEY])
  }

  /** The state of the chain fromSqlCmd builds for a payload. */
  function DbChainState(llm: (Template, map<string, Value>) -> string, database: OracleDb.OracleDatabase,
                        sqlCmd: Option<string>, properties: seq<Property>): SqlChain.ChainState
  {
    SqlChain.ChainState(LlmChain(SqlPrompt.ORACLE_CMD_PROMPT, llm), database, 5, "query", "result", false,
                        sqlCmd, Some(SqlEntries(properties)))
  }

  /**
   * invokeOracelDatabaseChain: getLLM, fromUri, the property loop (a null
   * list throws), fromSqlCmd and run(prompt); exceptions escape.
   */
  function OracleDatabaseResult(services: Services, chain: RequestChainPayload): Result<Option<string>>
  {
    match services.getLlm(chain.modelParameters)
    case Err(e) => Err(e)
    case Ok(llm) =>
      match chain.dbRequest
      case None => Err(NullPointer)
      case Some(db) =>
        match OracleDb.FromUri(db.dbConnection, db.dbUserName, db.dbPwd, services.connect)
        case Err(e) => Err(e)
        case Ok(database) =>
          match chain.properties
          case None => Err(NullPointer)
          case Some(properties) =>
            var step := SqlChain.Call(DbChainState(llm, database, db.sqlCmd, properties), map["query" := Str(chain.prompt)]);
            match step.result
            case Err(e) => Err(e)
            case Ok(outputs) => Ok(if "result" in outputs then Some(outputs["result"]) else None)
  }

  /** The switch on the lower-cased chain type: any other tag runs nothing and gives null. */
  function Dispatch(services: Services, chainType: string, chain: RequestChainPayload): Result<Option<string>>
  {
    var tag := Lower(chainType);
    if tag == "llm" then
      match LlmRun(services, chain.modelParameters, chain.prompt, chain.properties)
      case Err(e) => Err(e)
      case Ok(text) => Ok(Some(text))
    else if tag == "httprequest" then Ok(HttpRequestResult(services, chain))
    else if tag == "oracledb" then OracleDatabaseResult(services, chain)
    else Ok(None)
  }

  /** getChain: toLowerCase on a null chain type throws. */
  function ChainResult(services: Services, chainType: Option<string>, payload: RequestChainPayload): Result<Option<string>>
  {
    match chainType
    case None => Err(NullPointer)
    case Some(t) => Dispatch(services, t, payload)
  }

  // ---------------------------------------------------------------------
  // What getChain promises

  /** The chain type is matched without regard to ASCII case. */
  lemma TagCaseIgnored(services: Services, chainType: string, chain: RequestChainPayload)
    ensures Dispatch(services, chainType, chain) == Dispatch(services, Lower(chainType), chain)
  {
    assert Lower(Lower(chainType)) == Lower(chainType);
  }

  /** A tag outside the three runs nothing: the result is null whatever the services and the payload. */
  lemma UnknownTagRunsNothing(s1: Services, s2: Services, chainType: string, p1: RequestChainPayload,
                              p2: RequestChainPayload)
    requires Lower(chainType) !in LOWER_TAGS
    ensures ChainResult(s1, Some(chainType), p1) == ChainResult(s2, Some(chainType), p2) == Ok(None)
  {
  }

  /** An HTTP chain never throws: a failure anywhere in it is a null result. */
  lemma HttpChainNeverThrows(services: Services, chainType: string, chain: RequestChainPayload)
    requires Lower(chainType) == "httprequest"
    ensures Dispatch(services, chainType, chain).Ok?
    ensures services.getLlm(chain.modelParameters).Err? || chain.httpRequest.None? || chain.properties.None?
            ==> Dispatch(services, chainType, chain) == Ok(None)
  {
  }

  /** An oracleDb chain with no property list throws once the model and the connection are there. */
  lemma OracleChainNeedsProperties(services: Services, chain: RequestChainPayload)
    requires services.getLlm(chain.modelParameters).Ok? && chain.dbRequest.Some?
    requires OracleDb.FromUri(chain.dbRequest.value.dbConnection, chain.dbRequest.value.dbUserName,
                              chain.dbRequest.value.dbPwd, services.connect).Ok?
    requires chain.properties.None?
    ensures Dispatch(services, "oracleDb", chain) == Err(NullPointer)
  {
    assert Lower("oracleDb") == "oracledb";
  }

  /** A successful oracleDb chain returns a non-null result: the chain's single output key is the one read back. */
  lemma OracleResultIsStored(services: Services, chain: RequestChainPayload)
    requires OracleDatabaseResult(services, chain).Ok?
    ensures OracleDatabaseResult(services, chain).value.Some?
  {
    var llm := services.getLlm(chain.modelParameters).value;
    var db := chain.dbRequest.value;
    var database := OracleDb.FromUri(db.dbConnection, db.dbUserName, db.dbPwd, services.connect).value;
    var s := DbChainState(llm, database, db.sqlCmd, chain.properties.value);
    SqlChain.OneOutputKey(s, map["query" := Str(chain.prompt)]);
  }

  // ---------------------------------------------------------------------
  // getChains, as a function of the payload

  /** Utils.contains(ChainType.class, chainType): an exact, case-sensitive constant name. */
  predicate Supported(chain: RequestChainPayload)
  {
    EnumContains(CHAIN_TYPES, chain.chainType)
  }

  /** One turn of the loop: the enum check, the chain, then its result put into the prompt. */
  function ChainStep(services: Services, chain: RequestChainPayload, prompt: string): Result<string>
  {
    if !Supported(chain) then Err(NotSupported)
    else
      match Dispatch(services, chain.chainType.value, chain)
      case Err(e) => Err(e)
      case Ok(None) => Err(NullPointer)
      case Ok(Some(result)) => Ok(ReplaceTokenWithData(result, JavaString(chain.outputVariable), prompt))
  }

  /** The loop over the chains, in list order. */
  function RunChains(services: Services, chains: seq<RequestChainPayload>, prompt: string): Result<string>
    decreases |chains|
  {
    if chains == [] then Ok(prompt)
    else
      match RunChains(services, chains[..|chains| - 1], prompt)
      case Err(e) => Err(e)
      case Ok(p) => ChainStep(services, chains[|chains| - 1], p)
  }

  /** getChains: the loop, then invokeLLM on the final prompt with no properties. */
  function ChainsResult(services: Services, payload: RequestMultipleChainsPayload): Result<string>
  {
    match payload.chains
    case None => Err(NullPointer)
    case Some(chains) =>
      match RunChains(services, chains, payload.prompt)
      case Err(e) => Err(e)
      case Ok(prompt) => LlmRun(services, payload.modelParameters, prompt, None)
  }

  /** The result of a chain as it enters the prompt ("" for one that has none). */
  function ChainText(services: Services, chain: RequestChainPayload): string
  {
    if chain.chainType.Some? then
      match Dispatch(services, chain.chainType.value, chain)
      case Ok(Some(t)) => t
      case _ => ""
    else ""
  }

  /** The chains' results as properties named by their output variables, in list order. */
  function ChainOutputs(services: Services, chains: seq<RequestChainPayload>): (outputs: seq<Property>)
    ensures |outputs| == |chains|
    decreases |chains|
  {
    if chains == [] then []
    else
      var last := chains[|chains| - 1];
      ChainOutputs(services, chains[..|chains| - 1]) + [Property(JavaString(last.outputVariable), ChainText(services, last))]
  }

  // ---------------------------------------------------------------------
  // What getChains promises

  /** Running a list is running its first part, then the rest on the prompt that part produced. */
  lemma {:induction false} RunChainsAppend(services: Services, first: seq<RequestChainPayload>,
                                           second: seq<RequestChainPayload>, prompt: string)
    ensures RunChains(services, first + second, prompt) ==
      match RunChains(services, first, prompt)
      case Err(e) => Err(e)
      case Ok(p) => RunChains(services, second, p)
    decreases |second|
  {
    if second == [] {
      assert first + second == first;
    } else {
      var init := second[..|second| - 1];
      assert (first + second)[..|first + second| - 1] == first + init;
      assert (first + second)[|first + second| - 1] == second[|second| - 1];
      RunChainsAppend(services, first, init, prompt);
    }
  }

  /**
   * A chain whose type is not exactly a constant name stops the loop with
   * NotSupported once the chains before it have run; it and the chains
   * after it are not run.
   */
  lemma UnsupportedStops(services: Services, before: seq<RequestChainPayload>, chain: RequestChainPayload,
                         after: seq<RequestChainPayload>, prompt: string)
    requires !Supported(chain)
    ensures RunChains(services, before + [chain] + after, prompt) ==
      match RunChains(services, before, prompt)
      case Err(e) => Err(e)
      case Ok(_) => Err(NotSupported)
  {
    RunChainsAppend(services, before + [chain], after, prompt);
    RunChainsAppend(services, before, [chain], prompt);
    assert [chain][..0] == [];
  }

  /** A failing turn ends the loop with its exception. */
  lemma StopsAt(services: Services, chains: seq<RequestChainPayload>, i: nat, prompt: string, p: string)
    requires i < |chains|
    requires RunChains(services, chains[..i], prompt) == Ok(p)
    requires ChainStep(services, chains[i], p).Err?
    ensures RunChains(services, chains, prompt) == ChainStep(services, chains[i], p)
  {
    RunChainsSnoc(services, chains, i, prompt);
    ErrPersists(services, chains, i + 1, prompt);
  }

  /** Once a chain has failed, the chains after it leave the failure as it is. */
  lemma {:induction false} ErrPersists(services: Services, chains: seq<RequestChainPayload>, k: nat, prompt: string)
    requires k <= |chains| && RunChains(services, chains[..k], prompt).Err?
    ensures RunChains(services, chains, prompt) == RunChains(services, chains[..k], prompt)
    decreases |chains| - k
  {
    if k < |chains| {
      RunChainsSnoc(services, chains, k, prompt);
      ErrPersists(services, chains, k + 1, prompt);
    } else {
      assert chains[..k] == chains;
    }
  }

  /** Running one more chain is one more step after the chains before it. */
  lemma RunChainsSnoc(services: Services, chains: seq<RequestChainPayload>, i: nat, prompt: string)
    requires i < |chains|
    ensures RunChains(services, chains[..i + 1], prompt)
         == match RunChains(services, chains[..i], prompt)
            case Err(e) => Err(e)
            case Ok(p) => ChainStep(services, chains[i], p)
  {
    assert chains[..i + 1][..i] == chains[..i];
  }

  /**
   * Utils.contains(ChainType.class, type) accepts exactly the three constant
   * names, spelt as declared; each of them reaches a case of the switch, and
   * any other spelling of a tag the switch knows is refused.
   */
  lemma ChainTypesAccepted(chainType: Option<string>)
    ensures EnumContains(CHAIN_TYPES, chainType) <==>
              chainType == Some("llm") || chainType == Some("httpRequest") || chainType == Some("oracleDb")
    ensures EnumContains(CHAIN_TYPES, chainType) ==> Lower(chainType.value) in LOWER_TAGS
    ensures chainType.Some? && Lower(chainType.value) in LOWER_TAGS && chainType.value !in CHAIN_TYPES ==>
              !EnumContains(CHAIN_TYPES, chainType)
  {
    assert Lower("llm") == "llm";
    assert Lower("httpRequest") == "httprequest";
    assert Lower("oracleDb") == "oracledb";
  }

  /** "LLM" is accepted by getChain but rejected by getChains. */
  lemma CaseVariantOnlyInGetChain(services: Services, chain: RequestChainPayload, prompt: string)
    requires chain.chainType == Some("LLM")
    ensures Dispatch(services, "LLM", chain) == Dispatch(services, "llm", chain)
    ensures ChainStep(services, chain, prompt) == Err(NotSupported)
  {
    assert Lower("LLM") == "llm";
    assert Lower("llm") == "llm";
  }

  /** An HTTP chain that failed quietly makes the loop throw when its null result is substituted. */
  lemma QuietHttpFailureThrows(services: Services, chain: RequestChainPayload, prompt: string)
    requires chain.chainType == Some("httpRequest")
    requires HttpRequestResult(services, chain).None?
    ensures ChainStep(services, chain, prompt) == Err(NullPointer)
  {
    assert Lower("httpRequest") == "httprequest";
  }

  /**
   * A run that gets through every chain has substituted the chains'
   * results, in list order, into the prompt: the final prompt is the
   * property merge of those results.
   */
  lemma {:induction false} RunChainsMerges(services: Services, chains: seq<RequestChainPayload>, prompt: string)
    requires RunChains(services, chains, prompt).Ok?
    ensures RunChains(services, chains, prompt).value == Merged(ChainOutputs(services, chains), prompt)
    decreases |chains|
  {
    if chains != [] {
      var init, last := chains[..|chains| - 1], chains[|chains| - 1];
      RunChainsMerges(services, init, prompt);
      var p := RunChains(services, init, prompt).value;
      var property := Property(JavaString(last.outputVariable), ChainText(services, last));
      MergedLast(ChainOutputs(services, init), property, prompt);
      assert ChainStep(services, last, p) == Ok(ReplaceTokenWithData(property.value, property.key, p));
    }
  }

  /** The final completion sees only the substituted prompt: the top-level properties are never used. */
  lemma TopLevelPropertiesUnused(services: Services, payload: RequestMultipleChainsPayload, properties: Option<seq<Property>>)
    ensures ChainsResult(services, payload.(properties := properties)) == ChainsResult(services, payload)
    ensures payload.chains == Some([]) && services.getLlm(payload.modelParameters).Ok? ==>
      ChainsResult(services, payload) == Ok(services.getLlm(payload.modelParameters).value(FromText(payload.prompt), map[]))
  {
  }

  // ---------------------------------------------------------------------
  // The service methods

  /** invokeLLM */
  method InvokeLlm(services: Services, payload: RequestPayload) returns (r: Result<string>)
    ensures r == LlmRun(services, payload.modelParameters, payload.prompt, payload.properties)
  {
    var llm := services.getLlm(payload.modelParameters);
    if llm.Err? {
      return Err(llm.error);
    }
    var chain := LlmChain(FromText(payload.prompt), llm.value);
    var promptProperties: map<string, Value> := map[];
    if payload.properties.Some? {
      promptProperties := PutAll(payload.properties.value);
    }
    r := Ok(chain.Predict(promptProperties));
  }

  /** invokeLLMChain */
  method InvokeLlmChain(services: Services, chain: RequestChainPayload) returns (r: Result<string>)
    ensures r == LlmRun(services, chain.modelParameters, chain.prompt, chain.properties)
  {
    var llm := services.getLlm(chain.modelParameters);
    if llm.Err? {
      return Err(llm.error);
    }
    var llmChain := LlmChain(FromText(chain.prompt), llm.value);
    var promptProperties: map<string, Value> := map[];
    if chain.properties.Some? {
      promptProperties := PutAll(chain.properties.value);
    }
    r := Ok(llmChain.Predict(promptProperties));
  }

  /** invokeHTTPRequestChain */
  method InvokeHttpRequestChain(services: Services, chain: RequestChainPayload) returns (response: Option<string>)
    ensures response == HttpRequestResult(services, chain)
  {
    response := None;
    var llm := services.getLlm(chain.modelParameters);
    if llm.Err? || chain.httpRequest.None? {
      return;
    }
    var request := chain.httpRequest.value;
    var authToken := request.authorizationToken;
    if IsBlank(authToken) && !IsBlank(request.username) && IsBlank(request.pwd) {
      var valueToEncode := request.username.value + ":" + JavaString(request.pwd);
      authToken := Some("Basic " + Base64.Encode(FormEncoding.Utf8String(valueToEncode)));
    }
    if chain.properties.None? {
      return;
    }
    var prompt := MergePromptWithToken(chain.properties.value, chain.prompt);
    var headers: HttpChain.Headers := map[];
    headers := headers["Authorization" := authToken];
    headers := headers["Content-Type" := request.contentType];
    assert headers == RequestHeaders(request);
    var httpChain := HttpChain.UsingApiUrl(llm.value, request.apiURL, Some(headers), HttpPrompt.HTTPREQUEST_RESPONSE_PROMPT,
                                           services.fetch);
    var outputs := httpChain.InnerCall(map[httpChain.InputKeys()[0] := Str(prompt)]);
    if outputs.Ok? {
      response := Some(outputs.value[httpChain.OutputKeys()[0]]);
    }
  }

  /** invokeOracelDatabaseChain */
  method InvokeOracleDatabaseChain(services: Services, chain: RequestChainPayload) returns (r: Result<Option<string>>)
    ensures r == OracleDatabaseResult(services, chain)
  {
    var llm := services.getLlm(chain.modelParameters);
    if llm.Err? {
      return Err(llm.error);
    }
    if chain.dbRequest.None? {
      return Err(NullPointer);
    }
    var dbRequest := chain.dbRequest.value;
    var database := OracleDb.FromUri(dbRequest.dbConnection, dbRequest.dbUserName, dbRequest.dbPwd, services.connect);
    if database.Err? {
      return Err(database.error);
    }
    if chain.properties.None? {
      return Err(NullPointer);
    }
    var sqlProperties := PutAll(chain.properties.value);
    FirstKeysCover(chain.properties.value);
    var entries := Entries(sqlProperties, FirstKeys(chain.properties.value));
    var dbChain := SqlChain.FromSqlCmd(llm.value, database.value, dbRequest.sqlCmd, Some(entries));
    var outputs := dbChain.InnerCall(map[dbChain.inputKey := Str(chain.prompt)]);
    if outputs.Err? {
      return Err(outputs.error);
    }
    r := Ok(if dbChain.outputKey in outputs.value then Some(outputs.value[dbChain.outputKey]) else None);
  }

  /** The switch statement of getChain and getChains. */
  method InvokeByTag(services: Services, chainType: string, chain: RequestChainPayload) returns (r: Result<Option<string>>)
    ensures r == Dispatch(services, chainType, chain)
  {
    var tag := Lower(chainType);
    if tag == "llm" {
      var text := InvokeLlmChain(services, chain);
      r := if text.Err? then Err(text.error) else Ok(Some(text.value));
    } else if tag == "httprequest" {
      var response := InvokeHttpRequestChain(services, chain);
      r := Ok(response);
    } else if tag == "oracledb" {
      r := InvokeOracleDatabaseChain(services, chain);
    } else {
      r := Ok(None);
    }
  }

  /** getChain */
  method GetChain(services: Services, chainType: Option<string>, payload: RequestChainPayload)
    returns (r: Result<Option<string>>)
    ensures r == ChainResult(services, chainType, payload)
  {
    if chainType.None? {
      return Err(NullPointer);
    }
    r := InvokeByTag(services, chainType.value, payload);
  }

  /** One turn of the getChains loop: the enum check, the switch, then the substitution of the result. */
  method RunChain(services: Services, chain: RequestChainPayload, prompt: string) returns (r: Result<string>)
    ensures r == ChainStep(services, chain, prompt)
  {
    if !EnumContains(CHAIN_TYPES, chain.chainType) {
      return Err(NotSupported);
    }
    var chainResult := InvokeByTag(services, chain.chainType.value, chain);
    if chainResult.Err? {
      return Err(chainResult.error);
    }
    if chainResult.value.None? {
      return Err(NullPointer);
    }
    r := Ok(ReplaceTokenWithData(chainResult.value.value, JavaString(chain.outputVariable), prompt));
  }

  /** getChains */
  method GetChains(services: Services, payload: RequestMultipleChainsPayload) returns (r: Result<string>)
    ensures r == ChainsResult(services, payload)
  {
    if payload.chains.None? {
      return Err(NullPointer);
    }
    var chains := payload.chains.value;
    var prompt := payload.prompt;
    for i := 0 to |chains|
      invariant RunChains(services, chains[..i], payload.prompt) == Ok(prompt)
    {
      var step := RunChain(services, chains[i], prompt);
      if step.Err? {
        StopsAt(services, chains, i, payload.prompt, prompt);
        return Err(step.error);
      }
      RunChainsSnoc(services, chains, i, payload.prompt);
      prompt := step.value;
    }
    assert chains[..|chains|] == chains;
    r := InvokeLlm(services, RequestPayload(prompt, payload.modelParameters, None));
  }
}
