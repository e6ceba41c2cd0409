/**
 * The SQL generate-and-run chain (chain/sql/oracle/OracleDatabaseChain.java).
 * A call describes the tables, obtains a command (generated by the language
 * model, or the stored command with its properties substituted), strips its
 * semicolons, runs it, and returns the raw result or the model's answer about
 * it. The stored command is an instance field that the call overwrites, so
 * what one call leaves behind decides the branch the next call takes.
 */
module SqlChain {
  import opened Common
  import opened Utils
  import opened SqlPrompt
  import opened OracleDb

  const SQL_QUERY_MARK: string := "SQLQuery:"
  const SQL_RESULT_MARK: string := "SQLResult:"
  const RESULT_LINE: string := "\nSQLResult"
  const ANSWER_LINE: string := "\nAnswer"
  /** The stop sequence handed to the model with every prediction. */
  const STOP: string := "\n\nSQLResult:"
  const TABLE_NAMES_KEY: string := "table_names_to_use"

  // ---------------------------------------------------------------------
  // Reading the model's text

  /**
   * extractSQLQueryFromText: the first match of the regular expression
   * "SQLQuery:(.*?)SQLResult:" (DOTALL), i.e. the text after the first
   * "SQLQuery:" up to the first "SQLResult:" that follows it, or null.
   */
  function ExtractSqlQuery(text: string): (r: Option<string>)
    ensures r.None? <==> !Contains(text, SQL_QUERY_MARK)
                         || !Contains(text[IndexOf(text, SQL_QUERY_MARK) + |SQL_QUERY_MARK|..], SQL_RESULT_MARK)
    ensures r.Some? ==> !Contains(r.value, SQL_RESULT_MARK)
    ensures r.Some? ==>
      var i := IndexOf(text, SQL_QUERY_MARK) + |SQL_QUERY_MARK|;
      i + |r.value| <= |text| && text[i..i + |r.value|] == r.value && OccursAt(text, SQL_RESULT_MARK, i + |r.value|)
  {
    var start := IndexOf(text, SQL_QUERY_MARK);
    if start == -1 then None
    else
      var from := start + |SQL_QUERY_MARK|;
      var end := IndexFrom(text, SQL_RESULT_MARK, from);
      ResultMarkFromSuffix(text, from, end);
      if end == -1 then None
      else
        NoMarkBefore(text, from, end);
        Some(text[from..end])
  }

  /** The suffix from `from` contains the mark exactly when indexOf from `from` finds it. */
  lemma ResultMarkFromSuffix(text: string, from: nat, end: int)
    requires from <= |text| && end == IndexFrom(text, SQL_RESULT_MARK, from)
    ensures end == -1 <==> !Contains(text[from..], SQL_RESULT_MARK)
  {
    assert text[from..] == text[from..|text|];
    if end != -1 {
      OccursInSlice(text, SQL_RESULT_MARK, from, |text|, end - from);
    } else {
      forall j: nat | j <= |text[from..]| - |SQL_RESULT_MARK|
        ensures !OccursAt(text[from..], SQL_RESULT_MARK, j)
      {
        OccursInSlice(text, SQL_RESULT_MARK, from, |text|, j);
      }
    }
  }

  /** A stretch before the first mark holds no mark. */
  lemma NoMarkBefore(text: string, from: nat, end: nat)
    requires from <= end <= |text|
    requires forall k | from <= k < end :: !OccursAt(text, SQL_RESULT_MARK, k)
    ensures !Contains(text[from..end], SQL_RESULT_MARK)
  {
    forall j: nat | j <= end - from - |SQL_RESULT_MARK|
      ensures !OccursAt(text[from..end], SQL_RESULT_MARK, j)
    {
      OccursInSlice(text, SQL_RESULT_MARK, from, end, j);
    }
  }

  /**
   * The regular-expression search finds the leftmost "SQLQuery:" and, after
   * it, the nearest "SQLResult:": any other such pair starts later, or starts
   * at the same place and ends no earlier.
   */
  lemma ExtractIsLeftmostShortest(text: string, q: int, e: int)
    requires OccursAt(text, SQL_QUERY_MARK, q) && OccursAt(text, SQL_RESULT_MARK, e) && q + |SQL_QUERY_MARK| <= e
    ensures ExtractSqlQuery(text).Some?
    ensures var i := IndexOf(text, SQL_QUERY_MARK);
      i <= q && (i == q ==> i + |SQL_QUERY_MARK| + |ExtractSqlQuery(text).value| <= e)
  {
    OccurrenceShows(text, SQL_QUERY_MARK, q);
    var i := IndexOf(text, SQL_QUERY_MARK);
    var from := i + |SQL_QUERY_MARK|;
    assert i <= q;
    assert text[from..] == text[from..|text|];
    OccursInSlice(text, SQL_RESULT_MARK, from, |text|, e - from);
    var end := IndexFrom(text, SQL_RESULT_MARK, from);
    ResultMarkFromSuffix(text, from, end);
    assert end <= e;
  }

  /** A line that starts with "SQLResult" or "Answer" begins at `k`. */
  predicate MarkerAt(text: string, k: int)
  {
    OccursAt(text, RESULT_LINE, k) || OccursAt(text, ANSWER_LINE, k)
  }

  /** The first position, at or after `from`, where either marker begins, or -1. */
  function FirstMarkerFrom(text: string, from: nat): (r: int)
    ensures r == -1 || (from <= r && MarkerAt(text, r))
    ensures forall j | from <= j && (r == -1 || j < r) :: !MarkerAt(text, j)
    decreases |text| - from
  {
    if from >= |text| then -1
    else if MarkerAt(text, from) then from
    else FirstMarkerFrom(text, from + 1)
  }

  /**
   * The fallback of innerCall when extraction fails: the text before the
   * first "\nSQLResult" if it comes before any "\nAnswer", else the text
   * before the first "\nAnswer", semicolons removed in both cases; with
   * neither marker, the whole prediction.
   */
  function Fallback(prediction: string): string
  {
    var index1 := IndexOf(prediction, RESULT_LINE);
    var index2 := IndexOf(prediction, ANSWER_LINE);
    if index1 != -1 && (index2 == -1 || index1 < index2) then RemoveSemicolons(prediction[..index1])
    else if index2 != -1 then RemoveSemicolons(prediction[..index2])
    else prediction
  }

  /** The two markers never start at the same place. */
  lemma MarkersDiffer(text: string, k: int)
    requires OccursAt(text, RESULT_LINE, k)
    ensures !OccursAt(text, ANSWER_LINE, k)
  {
    assert text[k..k + |RESULT_LINE|][1] == 'S';
    assert text[k + 1] == 'S';
    assert ANSWER_LINE[1] == 'A';
  }

  /**
   * The two indexOf calls and their comparison cut the prediction at the
   * first place where either marker begins; without a marker nothing is cut.
   */
  lemma FallbackCutsAtFirstMarker(prediction: string)
    ensures var m := FirstMarkerFrom(prediction, 0);
      Fallback(prediction) == if m == -1 then prediction else RemoveSemicolons(prediction[..m])
  {
    var index1 := IndexOf(prediction, RESULT_LINE);
    var index2 := IndexOf(prediction, ANSWER_LINE);
    var m := FirstMarkerFrom(prediction, 0);
    if index1 != -1 && (index2 == -1 || index1 < index2) {
      forall j | 0 <= j < index1 ensures !MarkerAt(prediction, j) {
      }
      assert MarkerAt(prediction, index1);
      assert m == index1;
    } else if index2 != -1 {
      if index1 == index2 {
        MarkersDiffer(prediction, index1);
      }
      forall j | 0 <= j < index2 ensures !MarkerAt(prediction, j) {
      }
      assert MarkerAt(prediction, index2);
      assert m == index2;
    } else {
      forall j | 0 <= j ensures !MarkerAt(prediction, j) {
      }
      assert m == -1;
    }
  }

  /** The command the generation branch keeps: the extracted query, or the fallback cut. */
  function GeneratedCommand(prediction: string): string
  {
    match ExtractSqlQuery(prediction)
    case Some(query) => query
    case None => Fallback(prediction)
  }

  // ---------------------------------------------------------------------
  // One call, as a function of the chain's state

  /** The chain's fields. The property map is given by its entries in iteration order; null is None. */
  datatype ChainState = ChainState(
    llmChain: LlmChain,
    database: OracleDatabase,
    topK: int,
    inputKey: string,
    outputKey: string,
    returnDirect: bool,
    sqlCmd: Option<string>,
    sqlProperties: Option<seq<(string, Value)>>)

  /** What a call returns (or throws) and what it leaves in the sqlCmd field. */
  datatype Step = Step(result: Result<map<string, string>>, sqlCmd: Option<string>)

  /** The cast (List<String>) inputs.get("table_names_to_use"): null means every usable table. */
  function TableNamesToUse(inputs: map<string, Value>): Result<Option<seq<string>>>
  {
    match Get(inputs, TABLE_NAMES_KEY)
    case Null => Ok(None)
    case StrList(names) => Ok(Some(names))
    case _ => Err(ClassCast)
  }

  /** The cast (String) inputs.get(inputKey). */
  function InputString(inputs: map<string, Value>, key: string): Result<Option<string>>
  {
    match Get(inputs, key)
    case Null => Ok(None)
    case Str(s) => Ok(Some(s))
    case _ => Err(ClassCast)
  }

  /** The generation branch is taken exactly when the stored command is null or empty. */
  predicate Generates(s: ChainState)
  {
    s.sqlCmd.None? || s.sqlCmd.value == ""
  }

  /** The model inputs both branches put besides "input". */
  function SharedInputs(s: ChainState, tableInfo: string): map<string, Value>
  {
    map["top_k" := Int(s.topK), "dialect" := Str(s.database.Dialect()),
        "table_info" := Str(tableInfo), "stop" := StrList([STOP])]
  }

  /** The question as the generation branch phrases it: the input followed by "\nSQLQuery:". */
  function GenerationText(s: ChainState, inputs: map<string, Value>): string
  {
    ToStr(Get(inputs, s.inputKey)) + "\nSQLQuery:"
  }

  function GenerationInputs(s: ChainState, inputs: map<string, Value>, tableInfo: string): map<string, Value>
  {
    SharedInputs(s, tableInfo)["input" := Str(GenerationText(s, inputs))]
  }

  /** The outcome of the property loop: the command so far, the model inputs, and whether a null value stopped it. */
  datatype Substitution = Substitution(command: string, llmInputs: map<string, Value>, failed: bool)

  /**
   * The loop over sqlProperties: each entry is put into the model inputs,
   * then every "{key}" of the command is replaced by the value's toString;
   * a null value throws there, after the earlier entries took effect.
   */
  function Substitute(command: string, entries: seq<(string, Value)>, llmInputs: map<string, Value>): Substitution
    decreases |entries|
  {
    if entries == [] then Substitution(command, llmInputs, false)
    else
      var inputs := llmInputs[entries[0].0 := entries[0].1];
      if entries[0].1.Null? then Substitution(command, inputs, true)
      else Substitute(ReplaceAll(command, Placeholder(entries[0].0), ToStr(entries[0].1)), entries[1..], inputs)
  }

  /** The properties as the token merge sees them: key and value.toString(). */
  function AsProperties(entries: seq<(string, Value)>): seq<Property>
  {
    seq(|entries|, i requires 0 <= i < |entries| => Property(entries[i].0, ToStr(entries[i].1)))
  }

  /** The input of the answering prediction: the question, the raw result and "\nAnswer:". */
  function AnswerText(inputText: Option<string>, result: string): string
  {
    JavaString(inputText) + "\nSQLResult:\n" + result + "\nAnswer:"
  }

  /** From stripping semicolons on: the field is set, the command runs, and the result or the answer is returned. */
  function Finish(s: ChainState, inputText: Option<string>, llmInputs: map<string, Value>, command: string): Step
  {
    var stored := RemoveSemicolons(command);
    match s.database.Run(stored, true)
    case Err(e) => Step(Err(e), Some(stored))
    case Ok(result) =>
      if s.returnDirect then Step(Ok(map[s.outputKey := result]), Some(stored))
      else
        var answer := Trim(s.llmChain.Predict(llmInputs["input" := Str(AnswerText(inputText, result))]));
        Step(Ok(map[s.outputKey := answer]), Some(stored))
  }

  /** innerCall, as a function of the fields and the inputs. */
  function Call(s: ChainState, inputs: map<string, Value>): Step
  {
    match TableNamesToUse(inputs)
    case Err(e) => Step(Err(e), s.sqlCmd)
    case Ok(tableNames) =>
      match s.database.TableInfo(tableNames)
      case Err(e) => Step(Err(e), s.sqlCmd)
      case Ok(tableInfo) =>
        if Generates(s) then
          var llmInputs := GenerationInputs(s, inputs, tableInfo);
          var command := GeneratedCommand(s.llmChain.Predict(llmInputs));
          Finish(s, Some(GenerationText(s, inputs)), llmInputs, command)
        else
          match InputString(inputs, s.inputKey)
          case Err(e) => Step(Err(e), s.sqlCmd)
          case Ok(inputText) =>
            match s.sqlProperties
            case None => Step(Err(NullPointer), s.sqlCmd)
            case Some(entries) =>
              var sub := Substitute(s.sqlCmd.value, entries, SharedInputs(s, tableInfo)["input" := NullableStr(inputText)]);
              if sub.failed then Step(Err(NullPointer), Some(sub.command))
              else Finish(s, inputText, sub.llmInputs, sub.command)
  }

  // ---------------------------------------------------------------------
  // What a call promises

  /** A successful call went through Finish: it names the question, model inputs and command it ran. */
  lemma OkCallFinishes(s: ChainState, inputs: map<string, Value>)
    returns (inputText: Option<string>, llmInputs: map<string, Value>, command: string)
    requires Call(s, inputs).result.Ok?
    ensures Call(s, inputs) == Finish(s, inputText, llmInputs, command)
  {
    var tableNames := TableNamesToUse(inputs).value;
    var tableInfo := s.database.TableInfo(tableNames).value;
    if Generates(s) {
      llmInputs := GenerationInputs(s, inputs, tableInfo);
      inputText := Some(GenerationText(s, inputs));
      command := GeneratedCommand(s.llmChain.Predict(llmInputs));
    } else {
      inputText := InputString(inputs, s.inputKey).value;
      var sub := Substitute(s.sqlCmd.value, s.sqlProperties.value, SharedInputs(s, tableInfo)["input" := NullableStr(inputText)]);
      llmInputs := sub.llmInputs;
      command := sub.command;
    }
  }

  /** Whatever branch ran, the command that was run, and that stays in the field, holds no semicolon. */
  lemma RunCommandHasNoSemicolon(s: ChainState, inputs: map<string, Value>)
    ensures var step := Call(s, inputs);
      step.result.Ok? ==> step.sqlCmd.Some? && ';' !in step.sqlCmd.value
  {
    if Call(s, inputs).result.Ok? {
      var inputText, llmInputs, command := OkCallFinishes(s, inputs);
    }
  }

  /** A successful call returns a map with exactly one key, the output key. */
  lemma OneOutputKey(s: ChainState, inputs: map<string, Value>)
    ensures var step := Call(s, inputs);
      step.result.Ok? ==> step.result.value.Keys == {s.outputKey}
  {
    if Call(s, inputs).result.Ok? {
      var inputText, llmInputs, command := OkCallFinishes(s, inputs);
    }
  }

  /** With returnDirect the output is the raw text of running the stored command, column names included. */
  lemma DirectOutputIsRunResult(s: ChainState, inputs: map<string, Value>)
    requires s.returnDirect
    ensures var step := Call(s, inputs);
      step.result.Ok? ==>
        (step.sqlCmd.Some? && s.outputKey in step.result.value
         && s.database.Run(step.sqlCmd.value, true) == Ok(step.result.value[s.outputKey]))
  {
    if Call(s, inputs).result.Ok? {
      var inputText, llmInputs, command := OkCallFinishes(s, inputs);
      FinishDirect(s, inputText, llmInputs, command);
    }
  }

  /** The direct step alone: its output is the run result of the command it stores. */
  lemma FinishDirect(s: ChainState, inputText: Option<string>, llmInputs: map<string, Value>, command: string)
    requires s.returnDirect
    ensures var step := Finish(s, inputText, llmInputs, command);
      step.result.Ok? ==>
        (step.sqlCmd.Some? && s.outputKey in step.result.value
         && s.database.Run(step.sqlCmd.value, true) == Ok(step.result.value[s.outputKey]))
  {
    var stored := RemoveSemicolons(command);
    if s.database.Run(stored, true).Ok? {
      var result := s.database.Run(stored, true).value;
      assert Finish(s, inputText, llmInputs, command) == Step(Ok(map[s.outputKey := result]), Some(stored));
    }
  }

  /** Without returnDirect the output is the model's answer with surrounding whitespace removed. */
  lemma AnswerIsTrimmed(s: ChainState, inputs: map<string, Value>)
    requires !s.returnDirect
    ensures var step := Call(s, inputs);
      step.result.Ok? ==>
        (s.outputKey in step.result.value
         && var a := step.result.value[s.outputKey];
         a != [] ==> a[0] > ' ' && a[|a| - 1] > ' ')
  {
    if Call(s, inputs).result.Ok? {
      var inputText, llmInputs, command := OkCallFinishes(s, inputs);
      FinishAnswerTrimmed(s, inputText, llmInputs, command);
    }
  }

  /** The answer step alone: its output is a trimmed text. */
  lemma FinishAnswerTrimmed(s: ChainState, inputText: Option<string>, llmInputs: map<string, Value>, command: string)
    requires !s.returnDirect
    ensures var step := Finish(s, inputText, llmInputs, command);
      step.result.Ok? ==>
        (s.outputKey in step.result.value
         && var a := step.result.value[s.outputKey];
         a != [] ==> a[0] > ' ' && a[|a| - 1] > ' ')
  {
    var stored := RemoveSemicolons(command);
    if s.database.Run(stored, true).Ok? {
      var result := s.database.Run(stored, true).value;
      var answer := Trim(s.llmChain.Predict(llmInputs["input" := Str(AnswerText(inputText, result))]));
      assert Finish(s, inputText, llmInputs, command).result == Ok(map[s.outputKey := answer]);
    }
  }

  /**
   * A table list naming a table the database does not offer fails before
   * the model is asked anything: the same error whatever the model and the
   * stored command, and the stored command stays as it was.
   */
  lemma UnknownTableRejected(s: ChainState, inputs: map<string, Value>, names: seq<string>)
    requires Get(inputs, TABLE_NAMES_KEY) == StrList(names)
    requires RemoveAll(names, s.database.UsableTableNames()) != []
    ensures Call(s, inputs) == Step(Err(IllegalArgument("tableNames " + ListToString(RemoveAll(names, s.database.UsableTableNames()))
                                                       + " not found in database")), s.sqlCmd)
  {
  }

  /** A stored command without a property map fails with a NullPointerException once the tables are described. */
  lemma StoredCommandNeedsProperties(s: ChainState, inputs: map<string, Value>)
    requires !Generates(s) && s.sqlProperties.None?
    requires TableNamesToUse(inputs).Ok? && s.database.TableInfo(TableNamesToUse(inputs).value).Ok?
    requires InputString(inputs, s.inputKey).Ok?
    ensures Call(s, inputs) == Step(Err(NullPointer), s.sqlCmd)
  {
  }

  /**
   * A chain built without a stored command keeps the generated command in
   * its field, so a second call with the same inputs takes the stored-command
   * branch and, having no property map, fails.
   */
  lemma {:induction false} SecondCallAfterGeneration(s: ChainState, inputs: map<string, Value>)
    requires Generates(s) && s.sqlProperties.None?
    requires Call(s, inputs).sqlCmd.Some? && Call(s, inputs).sqlCmd.value != ""
    requires InputString(inputs, s.inputKey).Ok?
    ensures var next := s.(sqlCmd := Call(s, inputs).sqlCmd);
      Call(next, inputs) == Step(Err(NullPointer), next.sqlCmd)
  {
    var next := s.(sqlCmd := Call(s, inputs).sqlCmd);
    assert next.database == s.database;
    assert TableNamesToUse(inputs).Ok? && s.database.TableInfo(TableNamesToUse(inputs).value).Ok?;
    StoredCommandNeedsProperties(next, inputs);
  }

  /** Every property with a value: the loop runs to the end and the command is the token merge of the properties. */
  lemma {:induction false} SubstituteMerges(command: string, entries: seq<(string, Value)>, llmInputs: map<string, Value>)
    requires forall i | 0 <= i < |entries| :: !entries[i].1.Null?
    ensures var sub := Substitute(command, entries, llmInputs);
      !sub.failed && sub.command == Merged(AsProperties(entries), command)
    decreases |entries|
  {
    if entries != [] {
      assert AsProperties(entries)[1..] == AsProperties(entries[1..]);
      SubstituteMerges(ReplaceAll(command, Placeholder(entries[0].0), ToStr(entries[0].1)), entries[1..],
                       llmInputs[entries[0].0 := entries[0].1]);
    }
  }

  /** A null value at position n stops the loop there, after the first n properties were substituted. */
  lemma {:induction false} SubstituteStopsAtNull(command: string, entries: seq<(string, Value)>, llmInputs: map<string, Value>,
                                                 n: nat)
    requires n < |entries| && entries[n].1.Null?
    requires forall i | 0 <= i < n :: !entries[i].1.Null?
    ensures var sub := Substitute(command, entries, llmInputs);
      sub.failed && sub.command == Merged(AsProperties(entries[..n]), command)
    decreases n
  {
    if n > 0 {
      assert AsProperties(entries[..n])[1..] == AsProperties(entries[1..][..n - 1]);
      SubstituteStopsAtNull(ReplaceAll(command, Placeholder(entries[0].0), ToStr(entries[0].1)), entries[1..],
                            llmInputs[entries[0].0 := entries[0].1], n - 1);
    }
  }

  /**
   * With distinct keys and no null value, every property also becomes a
   * model input under its own key, and the other inputs are kept.
   */
  lemma {:induction false} SubstitutePutsProperties(command: string, entries: seq<(string, Value)>,
                                                    llmInputs: map<string, Value>)
    requires forall i | 0 <= i < |entries| :: !entries[i].1.Null?
    requires forall i, j | 0 <= i < j < |entries| :: entries[i].0 != entries[j].0
    ensures var m := Substitute(command, entries, llmInputs).llmInputs;
      (forall i | 0 <= i < |entries| :: entries[i].0 in m && m[entries[i].0] == entries[i].1)
      && (forall k | k in llmInputs && (forall i | 0 <= i < |entries| :: entries[i].0 != k) :: k in m && m[k] == llmInputs[k])
    decreases |entries|
  {
    if entries != [] {
      var rest := entries[1..];
      var inputs := llmInputs[entries[0].0 := entries[0].1];
      SubstitutePutsProperties(ReplaceAll(command, Placeholder(entries[0].0), ToStr(entries[0].1)), rest, inputs);
      var m := Substitute(command, entries, llmInputs).llmInputs;
      forall i | 0 <= i < |entries|
        ensures entries[i].0 in m && m[entries[i].0] == entries[i].1
      {
        if i > 0 {
          assert entries[i] == rest[i - 1];
        } else {
          assert forall j | 0 <= j < |rest| :: rest[j].0 != entries[0].0 by {
            forall j | 0 <= j < |rest| ensures rest[j].0 != entries[0].0 {
              assert rest[j] == entries[j + 1];
            }
          }
        }
      }
      forall k | k in llmInputs && (forall i | 0 <= i < |entries| :: entries[i].0 != k)
        ensures k in m && m[k] == llmInputs[k]
      {
        assert entries[0].0 != k;
        forall j | 0 <= j < |rest| ensures rest[j].0 != k {
          assert rest[j] == entries[j + 1];
        }
      }
    }
  }

  // ---------------------------------------------------------------------
  // The chain object

  class OracleDatabaseChain {
    var llmChain: LlmChain
    var database: OracleDatabase
    var topK: int
    var inputKey: string
    var outputKey: string
    var returnDirect: bool
    var sqlCmd: Option<string>
    var sqlProperties: Option<seq<(string, Value)>>

    function State(): ChainState
      reads this
    {
      ChainState(llmChain, database, topK, inputKey, outputKey, returnDirect, sqlCmd, sqlProperties)
    }

    function ChainType(): string
    {
      "sql_database_chain"
    }

    function InputKeys(): seq<string>
      reads this
    {
      [inputKey]
    }

    function OutputKeys(): seq<string>
      reads this
    {
      [outputKey]
    }

    /** OracleDatabaseChain(llmChain, database): no stored command, top_k 5, keys "query" and "result". */
    constructor (llmChain: LlmChain, database: OracleDatabase)
      ensures State() == ChainState(llmChain, database, 5, "query", "result", false, None, None)
      ensures InputKeys() == ["query"] && OutputKeys() == ["result"] && ChainType() == "sql_database_chain"
    {
      this.llmChain := llmChain;
      this.database := database;
      topK := 5;
      inputKey := "query";
      outputKey := "result";
      returnDirect := false;
      sqlCmd := None;
      sqlProperties := None;
    }

    /** OracleDatabaseChain(llmChain, database, sqlCmd, sqlProperties). */
    constructor WithCommand(llmChain: LlmChain, database: OracleDatabase, sqlCmd: Option<string>,
                            sqlProperties: Option<seq<(string, Value)>>)
      ensures State() == ChainState(llmChain, database, 5, "query", "result", false, sqlCmd, sqlProperties)
    {
      this.llmChain := llmChain;
      this.database := database;
      topK := 5;
      inputKey := "query";
      outputKey := "result";
      returnDirect := false;
      this.sqlCmd := sqlCmd;
      this.sqlProperties := sqlProperties;
    }

    /** innerCall: only the sqlCmd field changes, and the call is the function Call of the old state. */
    method InnerCall(inputs: map<string, Value>) returns (r: Result<map<string, string>>)
      modifies this`sqlCmd
      ensures r == old(Call(State(), inputs)).result
      ensures sqlCmd == old(Call(State(), inputs)).sqlCmd
    {
      var tableNamesToUse := TableNamesToUse(inputs);
      if tableNamesToUse.Err? {
        return Err(tableNamesToUse.error);
      }
      var tableInfo := database.GetTableInfo(tableNamesToUse.value);
      if tableInfo.Err? {
        return Err(tableInfo.error);
      }
      if sqlCmd.None? || sqlCmd.value == "" {
        r := GenerateAndRun(inputs, tableInfo.value);
      } else {
        r := SubstituteAndRun(inputs, tableInfo.value);
      }
    }

    /** The branch for a null or empty stored command: the model writes the command. */
    method GenerateAndRun(inputs: map<string, Value>, tableInfo: string) returns (r: Result<map<string, string>>)
      requires Generates(State())
      modifies this`sqlCmd
      ensures var step := old(Finish(State(), Some(GenerationText(State(), inputs)), GenerationInputs(State(), inputs, tableInfo),
                                     GeneratedCommand(llmChain.Predict(GenerationInputs(State(), inputs, tableInfo)))));
        r == step.result && sqlCmd == step.sqlCmd
    {
      var inputText := ToStr(Get(inputs, inputKey)) + "\nSQLQuery:";
      var llmInputs: map<string, Value> := map[];
      llmInputs := llmInputs["input" := Str(inputText)];
      llmInputs := llmInputs["top_k" := Int(topK)];
      llmInputs := llmInputs["dialect" := Str(database.Dialect())];
      llmInputs := llmInputs["table_info" := Str(tableInfo)];
      llmInputs := llmInputs["stop" := StrList([STOP])];
      assert llmInputs == GenerationInputs(State(), inputs, tableInfo);
      var predictResult := llmChain.Predict(llmInputs);
      var command := ReadCommand(predictResult);
      sqlCmd := Some(command);
      r := RunAndAnswer(Some(inputText), llmInputs);
    }

    /** The branch for a stored command: its properties are substituted into it. */
    method SubstituteAndRun(inputs: map<string, Value>, tableInfo: string) returns (r: Result<map<string, string>>)
      requires !Generates(State())
      modifies this`sqlCmd
      ensures var step := old(
        match InputString(inputs, inputKey)
        case Err(e) => Step(Err(e), sqlCmd)
        case Ok(inputText) =>
          match sqlProperties
          case None => Step(Err(NullPointer), sqlCmd)
          case Some(entries) =>
            var sub := Substitute(sqlCmd.value, entries, SharedInputs(State(), tableInfo)["input" := NullableStr(inputText)]);
            if sub.failed then Step(Err(NullPointer), Some(sub.command))
            else Finish(State(), inputText, sub.llmInputs, sub.command));
        r == step.result && sqlCmd == step.sqlCmd
    {
      var text := InputString(inputs, inputKey);
      if text.Err? {
        return Err(text.error);
      }
      var inputText := text.value;
      var llmInputs: map<string, Value> := map[];
      llmInputs := llmInputs["input" := NullableStr(inputText)];
      llmInputs := llmInputs["top_k" := Int(topK)];
      llmInputs := llmInputs["dialect" := Str(database.Dialect())];
      llmInputs := llmInputs["table_info" := Str(tableInfo)];
      llmInputs := llmInputs["stop" := StrList([STOP])];
      assert llmInputs == SharedInputs(State(), tableInfo)["input" := NullableStr(inputText)];
      if sqlProperties.None? {
        return Err(NullPointer);
      }
      var failed;
      failed, llmInputs := SubstituteProperties(sqlProperties.value, llmInputs);
      if failed {
        return Err(NullPointer);
      }
      r := RunAndAnswer(inputText, llmInputs);
    }

    /**
     * The loop over sqlProperties: each value goes into the model inputs and
     * replaces its placeholder in the stored command; a null value stops it.
     */
    method SubstituteProperties(entries: seq<(string, Value)>, inputs: map<string, Value>)
      returns (failed: bool, llmInputs: map<string, Value>)
      requires sqlCmd.Some?
      modifies this`sqlCmd
      ensures var sub := old(Substitute(sqlCmd.value, entries, inputs));
        sqlCmd == Some(sub.command) && failed == sub.failed && llmInputs == sub.llmInputs
    {
      llmInputs := inputs;
      ghost var whole := Substitute(sqlCmd.value, entries, llmInputs);
      for i := 0 to |entries|
        invariant sqlCmd.Some?
        invariant Substitute(sqlCmd.value, entries[i..], llmInputs) == whole
      {
        assert entries[i..][1..] == entries[i + 1..];
        llmInputs := llmInputs[entries[i].0 := entries[i].1];
        if entries[i].1.Null? {
          return true, llmInputs;
        }
        var placeholder := "{" + entries[i].0 + "}";
        var value := ToStr(entries[i].1);
        sqlCmd := Some(ReplaceAll(sqlCmd.value, placeholder, value));
      }
      assert entries[|entries|..] == [];
      failed := false;
    }

    /** The common tail: strip semicolons into the field, run, and return the result or the answer. */
    method RunAndAnswer(inputText: Option<string>, llmInputs: map<string, Value>) returns (r: Result<map<string, string>>)
      requires sqlCmd.Some?
      modifies this`sqlCmd
      ensures var step := old(Finish(State(), inputText, llmInputs, sqlCmd.value));
        r == step.result && sqlCmd == step.sqlCmd
    {
      sqlCmd := Some(RemoveSemicolons(sqlCmd.value));
      var result := database.RunCommand(sqlCmd.value, true);
      if result.Err? {
        return Err(result.error);
      }
      var finalResult: string;
      if returnDirect {
        finalResult := result.value;
      } else {
        var answerText := JavaString(inputText) + "\nSQLResult:\n" + result.value + "\nAnswer:";
        finalResult := Trim(llmChain.Predict(llmInputs["input" := Str(answerText)]));
      }
      r := Ok(map[outputKey := finalResult]);
    }
  }

  /** The command of the generation branch: the extracted query, else the text cut at the first marker. */
  method ReadCommand(predictResult: string) returns (command: string)
    ensures command == GeneratedCommand(predictResult)
  {
    var query := ExtractSqlQuery(predictResult);
    if query.Some? {
      return query.value;
    }
    var index1 := IndexOf(predictResult, RESULT_LINE);
    var index2 := IndexOf(predictResult, ANSWER_LINE);
    if index1 != -1 && (index2 == -1 || index1 < index2) {
      command := RemoveSemicolons(predictResult[..index1]);
    } else if index2 != -1 {
      command := RemoveSemicolons(predictResult[..index2]);
    } else {
      command := predictResult;
    }
  }

  /** fromLLM(llm, database): the "oracle" prompt of SQL_PROMPTS. */
  method FromLlm(llm: (Template, map<string, Value>) -> string, database: OracleDatabase) returns (c: OracleDatabaseChain)
    ensures fresh(c)
    ensures c.State() == ChainState(LlmChain(ORACLE_PROMPT, llm), database, 5, "query", "result", false, None, None)
  {
    var prompt := SQL_PROMPTS["oracle"];
    c := FromLlmWithPrompt(llm, database, prompt);
  }

  /** fromSqlCmd(llm, database, sql, sqlProperties): the "oracle_cmd" prompt of SQL_PROMPTS. */
  method FromSqlCmd(llm: (Template, map<string, Value>) -> string, database: OracleDatabase, sql: Option<string>,
                    sqlProperties: Option<seq<(string, Value)>>) returns (c: OracleDatabaseChain)
    ensures fresh(c)
    ensures c.State() == ChainState(LlmChain(ORACLE_CMD_PROMPT, llm), database, 5, "query", "result", false, sql, sqlProperties)
  {
    var prompt := SQL_PROMPTS["oracle_cmd"];
    c := FromLlmWithCommand(llm, database, prompt, sql, sqlProperties);
  }

  method FromLlmWithPrompt(llm: (Template, map<string, Value>) -> string, database: OracleDatabase, prompt: Template)
    returns (c: OracleDatabaseChain)
    ensures fresh(c)
    ensures c.State() == ChainState(LlmChain(prompt, llm), database, 5, "query", "result", false, None, None)
  {
    c := new OracleDatabaseChain(LlmChain(prompt, llm), database);
  }

  method FromLlmWithCommand(llm: (Template, map<string, Value>) -> string, database: OracleDatabase, prompt: Template,
                            sql: Option<string>, sqlProperties: Option<seq<(string, Value)>>)
    returns (c: OracleDatabaseChain)
    ensures fresh(c)
    ensures c.State() == ChainState(LlmChain(prompt, llm), database, 5, "query", "result", false, sql, sqlProperties)
  {
    c := new OracleDatabaseChain.WithCommand(LlmChain(prompt, llm), database, sql, sqlProperties);
  }
}
