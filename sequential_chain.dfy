/**
 * The two-step SQL chain (chain/sql/oracle/OracleDatabaseSequentialChain.java):
 * a decider model picks the relevant tables from the usable ones, the picks
 * the database knows (compared in lower case) are kept, and the SQL chain is
 * called with them as "table_names_to_use".
 */
module SequentialChain {
  import opened Common
  import opened SqlPrompt
  import opened OracleDb
  import opened SqlChain

  /**
   * The decider: a model call on its prompt followed by the prompt's output
   * parser (predictAndParse). The parser is library code and is a parameter.
   */
  datatype DeciderChain = DeciderChain(llmChain: LlmChain, parse: string -> seq<string>)
  {
    function PredictAndParse(inputs: map<string, Value>): seq<string>
    {
      parse(llmChain.Predict(inputs))
    }
  }

  /** The usable names, each in lower case, in the same order. */
  function LowerAll(names: seq<string>): (r: seq<string>)
    ensures |r| == |names| && forall i | 0 <= i < |names| :: r[i] == Lower(names[i])
  {
    seq(|names|, i requires 0 <= i < |names| => Lower(names[i]))
  }

  /** The database has a table of this name, ignoring the case of ASCII letters. */
  predicate IsKnown(name: string, usable: seq<string>)
  {
    Lower(name) in LowerAll(usable)
  }

  /** The decider's picks the database knows, in the decider's order, duplicates kept, in the decider's spelling. */
  function KnownTables(picks: seq<string>, usable: seq<string>): (r: seq<string>)
    ensures |r| <= |picks|
    ensures Subsequence(r, picks)
    ensures forall t :: multiset(r)[t] == if IsKnown(t, usable) then multiset(picks)[t] else 0
    decreases |picks|
  {
    if picks == [] then []
    else
      var init := picks[..|picks| - 1];
      var last := picks[|picks| - 1];
      assert picks == init + [last];
      var rest := KnownTables(init, usable);
      SubsequenceSnoc(rest, init, last);
      if IsKnown(last, usable) then rest + [last] else rest
  }

  /** A pick that differs from every usable name only in case is kept by the filter. */
  lemma {:induction false} CaseVariantKept(picks: seq<string>, usable: seq<string>, k: nat, u: nat)
    requires k < |picks| && u < |usable| && Lower(picks[k]) == Lower(usable[u])
    ensures picks[k] in KnownTables(picks, usable)
  {
    assert LowerAll(usable)[u] == Lower(picks[k]);
    assert multiset(picks)[picks[k]] > 0;
    assert multiset(KnownTables(picks, usable))[picks[k]] > 0;
  }

  /** The filter keeps nothing else: every kept name equals some usable name up to case. */
  lemma KeptNamesAreKnown(picks: seq<string>, usable: seq<string>, t: string)
    requires t in KnownTables(picks, usable)
    ensures exists u | 0 <= u < |usable| :: Lower(usable[u]) == Lower(t)
  {
    assert multiset(KnownTables(picks, usable))[t] > 0;
    var u :| 0 <= u < |usable| && LowerAll(usable)[u] == Lower(t);
  }

  /** The loop over the decider's picks, against the lower-cased usable names. */
  method KeepKnownTables(picks: seq<string>, lowerCasedTableNames: seq<string>, ghost usable: seq<string>)
    returns (tableNamesToUse: seq<string>)
    requires lowerCasedTableNames == LowerAll(usable)
    ensures tableNamesToUse == KnownTables(picks, usable)
  {
    tableNamesToUse := [];
    for i := 0 to |picks|
      invariant tableNamesToUse == KnownTables(picks[..i], usable)
    {
      assert picks[..i + 1][..i] == picks[..i];
      if Lower(picks[i]) in lowerCasedTableNames {
        tableNamesToUse := tableNamesToUse + [picks[i]];
      }
    }
    assert picks[..|picks|] == picks;
  }

  /** The inputs of the decider: the question and the usable names joined with ", ". */
  function DeciderInputs(question: Value, usable: seq<string>): map<string, Value>
  {
    map["query" := question, "table_names" := Str(Join(", ", usable))]
  }

  /** The inputs handed to the SQL chain. */
  function SqlInputs(sqlInputKey: string, question: Value, names: seq<string>): map<string, Value>
  {
    map[sqlInputKey := question, TABLE_NAMES_KEY := StrList(names)]
  }

  /**
   * innerCall as a function of the SQL chain's state. Map.of rejects a null
   * question, and a duplicate key when the SQL chain's input key is
   * "table_names_to_use".
   */
  function SequentialCall(sql: ChainState, decider: DeciderChain, inputKey: string, inputs: map<string, Value>): Step
  {
    var usable := sql.database.UsableTableNames();
    var question := Get(inputs, inputKey);
    if question.Null? then Step(Err(NullPointer), sql.sqlCmd)
    else
      var names := KnownTables(decider.PredictAndParse(DeciderInputs(question, usable)), usable);
      if sql.inputKey == TABLE_NAMES_KEY then Step(Err(IllegalArgument("duplicate key: " + TABLE_NAMES_KEY)), sql.sqlCmd)
      else Call(sql, SqlInputs(sql.inputKey, question, names))
  }

  /**
   * A pick that matches a usable table only up to case passes the filter but
   * not getTableInfo, which compares names exactly: the call fails with the
   * "not found in database" error before any SQL is generated.
   */
  lemma {:induction false} CaseVariantRejected(sql: ChainState, decider: DeciderChain, inputKey: string,
                                               inputs: map<string, Value>, k: nat, u: nat)
    requires !Get(inputs, inputKey).Null? && sql.inputKey != TABLE_NAMES_KEY
    requires var picks := decider.PredictAndParse(DeciderInputs(Get(inputs, inputKey), sql.database.UsableTableNames()));
      k < |picks| && u < |sql.database.UsableTableNames()|
      && Lower(picks[k]) == Lower(sql.database.UsableTableNames()[u]) && picks[k] !in sql.database.UsableTableNames()
    ensures SequentialCall(sql, decider, inputKey, inputs).result.Err?
    ensures SequentialCall(sql, decider, inputKey, inputs).result.error.IllegalArgument?
    ensures SequentialCall(sql, decider, inputKey, inputs).sqlCmd == sql.sqlCmd
  {
    var usable := sql.database.UsableTableNames();
    var question := Get(inputs, inputKey);
    var picks := decider.PredictAndParse(DeciderInputs(question, usable));
    var names := KnownTables(picks, usable);
    CaseVariantKept(picks, usable, k, u);
    assert picks[k] in RemoveAll(names, usable);
    var sqlInputs := SqlInputs(sql.inputKey, question, names);
    assert Get(sqlInputs, TABLE_NAMES_KEY) == StrList(names);
    UnknownTableRejected(sql, sqlInputs, names);
  }

  /**
   * When every kept pick is spelled as the database spells it, the table
   * list passes getTableInfo's check, and the SQL chain describes exactly the
   * kept tables.
   */
  lemma ExactPicksAccepted(sql: ChainState, decider: DeciderChain, inputKey: string, inputs: map<string, Value>)
    requires !Get(inputs, inputKey).Null? && sql.inputKey != TABLE_NAMES_KEY
    requires var usable := sql.database.UsableTableNames();
      forall t | t in KnownTables(decider.PredictAndParse(DeciderInputs(Get(inputs, inputKey), usable)), usable) :: t in usable
    ensures var usable := sql.database.UsableTableNames();
      var names := KnownTables(decider.PredictAndParse(DeciderInputs(Get(inputs, inputKey), usable)), usable);
      SequentialCall(sql, decider, inputKey, inputs) == Call(sql, SqlInputs(sql.inputKey, Get(inputs, inputKey), names))
      && RemoveAll(names, usable) == []
  {
    var usable := sql.database.UsableTableNames();
    var names := KnownTables(decider.PredictAndParse(DeciderInputs(Get(inputs, inputKey), usable)), usable);
    RemoveAllCovered(names, usable);
  }

  /** A successful call returns the SQL chain's single output key. */
  lemma SequentialOutputKey(sql: ChainState, decider: DeciderChain, inputKey: string, inputs: map<string, Value>)
    ensures var step := SequentialCall(sql, decider, inputKey, inputs);
      step.result.Ok? ==> step.result.value.Keys == {sql.outputKey}
  {
    var usable := sql.database.UsableTableNames();
    var question := Get(inputs, inputKey);
    if !question.Null? && sql.inputKey != TABLE_NAMES_KEY {
      var names := KnownTables(decider.PredictAndParse(DeciderInputs(question, usable)), usable);
      OneOutputKey(sql, SqlInputs(sql.inputKey, question, names));
    }
  }

  class OracleDatabaseSequentialChain {
    var sqlChain: OracleDatabaseChain
    var deciderChain: DeciderChain
    var inputKey: string
    var outputKey: string

    function ChainType(): string
    {
      "oracle_database_sequential_chain"
    }

    function InputKeys(): seq<string>
      reads this
    {
      [inputKey]
    }

    function OutputKeys(): seq<string>
      reads this
    {
      [outputKey]
    }

    /** OracleDatabaseSequentialChain(sqlChain, deciderChain): keys "query" and "result". */
    constructor (sqlChain: OracleDatabaseChain, deciderChain: DeciderChain)
      ensures this.sqlChain == sqlChain && this.deciderChain == deciderChain
      ensures InputKeys() == ["query"] && OutputKeys() == ["result"]
      ensures ChainType() == "oracle_database_sequential_chain"
    {
      this.sqlChain := sqlChain;
      this.deciderChain := deciderChain;
      inputKey := "query";
      outputKey := "result";
    }

    /** innerCall: the SQL chain's stored command is the only state that changes. */
    method InnerCall(inputs: map<string, Value>) returns (r: Result<map<string, string>>)
      modifies sqlChain`sqlCmd
      ensures r == old(SequentialCall(sqlChain.State(), deciderChain, inputKey, inputs)).result
      ensures sqlChain.sqlCmd == old(SequentialCall(sqlChain.State(), deciderChain, inputKey, inputs)).sqlCmd
    {
      var database := sqlChain.database;
      var tableNameList := database.GetUsableTableNames();
      var tableNames := Join(", ", tableNameList);
      var question := Get(inputs, inputKey);
      if question.Null? {
        return Err(NullPointer);
      }
      var llmInputs := map["query" := question, "table_names" := Str(tableNames)];
      var lowerCasedTableNames := LowerAll(tableNameList);
      var tableNamesFromChain := deciderChain.PredictAndParse(llmInputs);
      var tableNamesToUse := KeepKnownTables(tableNamesFromChain, lowerCasedTableNames, tableNameList);
      if sqlChain.inputKey == TABLE_NAMES_KEY {
        return Err(IllegalArgument("duplicate key: " + TABLE_NAMES_KEY));
      }
      var newInputs := map[sqlChain.inputKey := question, TABLE_NAMES_KEY := StrList(tableNamesToUse)];
      r := sqlChain.InnerCall(newInputs);
    }
  }

  /** fromLLM(llm, database, queryPrompt, deciderPrompt): one model behind both chains. */
  method FromLlmWithPrompts(llm: (Template, map<string, Value>) -> string, parse: string -> seq<string>,
                            database: OracleDatabase, queryPrompt: Template, deciderPrompt: Template)
    returns (c: OracleDatabaseSequentialChain)
    ensures fresh(c) && fresh(c.sqlChain)
    ensures c.sqlChain.State() == ChainState(LlmChain(queryPrompt, llm), database, 5, "query", "result", false, None, None)
    ensures c.deciderChain == DeciderChain(LlmChain(deciderPrompt, llm), parse)
    ensures c.InputKeys() == ["query"] && c.OutputKeys() == ["result"]
  {
    var sqlChain := FromLlmWithPrompt(llm, database, queryPrompt);
    var deciderChain := DeciderChain(LlmChain(deciderPrompt, llm), parse);
    c := new OracleDatabaseSequentialChain(sqlChain, deciderChain);
  }

  /** fromLLM(llm, database): the default query prompt and the decider prompt. */
  method FromLlm(llm: (Template, map<string, Value>) -> string, parse: string -> seq<string>, database: OracleDatabase)
    returns (c: OracleDatabaseSequentialChain)
    ensures fresh(c) && fresh(c.sqlChain)
    ensures c.sqlChain.State() == ChainState(LlmChain(PROMPT, llm), database, 5, "query", "result", false, None, None)
    ensures c.deciderChain == DeciderChain(LlmChain(DECIDER_PROMPT, llm), parse)
  {
    c := FromLlmWithPrompts(llm, parse, database, PROMPT, DECIDER_PROMPT);
  }
}
