/**
 * The prompt templates of the Oracle SQL chains (chain/sql/oracle/prompt/Prompt.java).
 * Each template text is written as its literal pieces around the "{name}"
 * placeholders, so that which placeholders a template holds can be proved.
 */
module SqlPrompt {
  import opened Common
  import opened Utils
  import opened TemplateText

  // PROMPT_SUFFIX and CMD_PROMPT_SUFFIX, written out twice as the source does.
  const SUFFIX_HEAD: string := "\nOnly use the following tables: "
  const SUFFIX_MIDDLE: string := " \nQuestion: "
  const PROMPT_SUFFIX: string := Render(Interleave([SUFFIX_HEAD, SUFFIX_MIDDLE, ""], ["table_info", "input"]))
  const CMD_PROMPT_SUFFIX: string :=
    Render(Interleave(["\nOnly use the following tables: ", " \nQuestion: ", ""], ["table_info", "input"]))

  // _DEFAULT_TEMPLATE before its one placeholder {top_k} ...
  const DEFAULT_HEAD_1: string :=
    "Given an input " + "question, first " + "create a " + "syntactically " + "correct Oracle " + "database query "
  const DEFAULT_HEAD_2: string :=
    "to run, then " + "look at the " + "results of the " + "query and " + "return the " + "answer. Unless " + "the user "
  const DEFAULT_HEAD_3: string :=
    "specifies in " + "his question a " + "specific number " + "of examples he " + "wishes to " + "obtain, always " + "limit your "
  const DEFAULT_HEAD_4: string :=
    "query to at " + "most "
  const DEFAULT_HEAD: string := DEFAULT_HEAD_1 + DEFAULT_HEAD_2 + DEFAULT_HEAD_3 + DEFAULT_HEAD_4
  // ... and after it.
  const DEFAULT_TAIL_1: string :=
    " results. You " + "can order the " + "results by a " + "relevant column " + "to return the " + "most " + "interesting "
  const DEFAULT_TAIL_2: string :=
    "examples in the " + "database.\nNever " + "query for all " + "the columns " + "from a specific " + "table, only ask "
  const DEFAULT_TAIL_3: string :=
    "for a the few " + "relevant " + "columns given " + "the question.\n" + "Pay attention " + "to use only the " + "column names "
  const DEFAULT_TAIL_4: string :=
    "that you can " + "see in the " + "schema " + "description. Be " + "careful to not " + "query for " + "columns that do "
  const DEFAULT_TAIL_5: string :=
    "not exist. " + "Also, pay " + "attention to " + "which column is " + "in which " + "table.\n\nUse the " + "following " + "format:\n\n"
  const DEFAULT_TAIL_6: string :=
    "Question: " + "Question here\n\n" + "SQLQuery: SQL " + "Query to run\n\n" + "SQLResult: " + "Result of the " + "SQLQuery \n\n"
  const DEFAULT_TAIL_7: string :=
    "Answer:\n"
  const DEFAULT_TAIL: string := DEFAULT_TAIL_1 + DEFAULT_TAIL_2 + DEFAULT_TAIL_3 + DEFAULT_TAIL_4 + DEFAULT_TAIL_5 + DEFAULT_TAIL_6 + DEFAULT_TAIL_7
  const DEFAULT_TEMPLATE: string := Render(Interleave([DEFAULT_HEAD, DEFAULT_TAIL], ["top_k"]))

  // _DECIDER_TEMPLATE, around {query} and {table_names}.
  const DECIDER_HEAD: string :=
        "Given the below input question "
      + "and list of potential tables, "
      + "output a comma separated list "
      + "of the table names that may be "
      + "necessary to answer this "
      + "question.\nQuestion: "
  const DECIDER_MIDDLE: string := " \n\nTable Names: "
  const DECIDER_TAIL: string := "\nRelevant Table Names:"
  const DECIDER_TEMPLATE: string := Render(Interleave([DECIDER_HEAD, DECIDER_MIDDLE, DECIDER_TAIL], ["query", "table_names"]))

  // _oracle_prompt, around {top_k}.
  const ORACLE_HEAD: string :=
        "You are an Oracle SQL expert. "
      + "Given an input question, first "
      + "create a syntactically correct "
      + "Oracle SQL query to run, then "
      + "look at the results of the "
      + "query and return the answer to "
      + "the input question. \nUnless the "
      + "user specifies in the question "
      + "a specific number of examples "
      + "to obtain, query for at most "
  const ORACLE_TAIL: string :=
        " results using the FETCH FIRST "
      + "n ROWS ONLY clause as per "
      + "Oracle SQL. You can order the "
      + "results to return the most "
      + "informative data in the "
      + "database. \nNever query for all "
      + "columns from a table. You must "
      + "query only the columns that are "
      + "needed to answer the question. "
      + "Wrap each column name in double "
      + "quotes (\") to denote them as "
      + "delimited identifiers. \nPay "
      + "attention to use only the "
      + "column names you can see in the "
      + "tables below. Be careful to not "
      + "query for columns that do not "
      + "exist. Also, pay attention to "
      + "which column is in which "
      + "table. \nPay attention to use "
      + "TRUNC(SYSDATE) function to get "
      + "the current date, if the "
      + "question involves \"today\". Must "
      + "use the following format: \n"
      + "Question: Question here\n"
      + "SQLQuery: SQL Query to run\n"
      + "SQLResult: Result of the "
      + "SQLQuery\nAnswer:\n"
  const ORACLE_TEMPLATE: string := Render(Interleave([ORACLE_HEAD, ORACLE_TAIL], ["top_k"]))

  // _oracle_cmd_prompt, which holds no placeholder.
  const ORACLE_CMD_TEMPLATE_1: string :=
    "You are an " + "Oracle SQL " + "expert. Given " + "an input " + "question and " + "the SQL query " + "statments, look "
  const ORACLE_CMD_TEMPLATE_2: string :=
    "at the results " + "of the query " + "and return the " + "answer to the " + "input " + "question.  Must " + "use the "
  const ORACLE_CMD_TEMPLATE_3: string :=
    "following " + "format:\n" + "Question: " + "Question here\n" + "SQLQuery: SQL " + "Query to run\n" + "Answer: Final " + "answer here\n"
  const ORACLE_CMD_TEMPLATE: string := ORACLE_CMD_TEMPLATE_1 + ORACLE_CMD_TEMPLATE_2 + ORACLE_CMD_TEMPLATE_3

  const PROMPT: Template := Declared(["input", "table_info", "dialect", "top_k"], DEFAULT_TEMPLATE + PROMPT_SUFFIX, NoParser)
  const DECIDER_PROMPT: Template := Declared(["query", "table_names"], DECIDER_TEMPLATE, CommaSeparatedList)
  const ORACLE_PROMPT: Template := Declared(["input", "table_info", "top_k"], ORACLE_TEMPLATE + PROMPT_SUFFIX, NoParser)
  const ORACLE_CMD_PROMPT: Template := Declared(["input", "table_info", "top_k"], ORACLE_CMD_TEMPLATE + CMD_PROMPT_SUFFIX, NoParser)

  /** SQL_PROMPTS, keyed by dialect name. */
  const SQL_PROMPTS: map<string, Template> := map["oracle" := ORACLE_PROMPT, "oracle_cmd" := ORACLE_CMD_PROMPT]

  // The prose pieces hold no '{', so no placeholder can start inside them.
  // Each group of pieces is checked on its own; the checks are combined below.
  lemma PlainDefaultHead1()
    ensures '{' !in DEFAULT_HEAD_1
  {
    assert '{' !in "Given an input ";
    assert '{' !in "question, first ";
    assert '{' !in "create a ";
    assert '{' !in "syntactically ";
    assert '{' !in "correct Oracle ";
    assert '{' !in "database query ";
  }

  lemma PlainDefaultHead2()
    ensures '{' !in DEFAULT_HEAD_2
  {
    assert '{' !in "to run, then ";
    assert '{' !in "look at the ";
    assert '{' !in "results of the ";
    assert '{' !in "query and ";
    assert '{' !in "return the ";
    assert '{' !in "answer. Unless ";
    assert '{' !in "the user ";
  }

  lemma PlainDefaultHead3()
    ensures '{' !in DEFAULT_HEAD_3
  {
    assert '{' !in "specifies in ";
    assert '{' !in "his question a ";
    assert '{' !in "specific number ";
    assert '{' !in "of examples he ";
    assert '{' !in "wishes to ";
    assert '{' !in "obtain, always ";
    assert '{' !in "limit your ";
  }

  lemma PlainDefaultHead4()
    ensures '{' !in DEFAULT_HEAD_4
  {
    assert '{' !in "query to at ";
    assert '{' !in "most ";
  }

  lemma PlainDefaultTail1()
    ensures '{' !in DEFAULT_TAIL_1
  {
    assert '{' !in " results. You ";
    assert '{' !in "can order the ";
    assert '{' !in "results by a ";
    assert '{' !in "relevant column ";
    assert '{' !in "to return the ";
    assert '{' !in "most ";
    assert '{' !in "interesting ";
  }

  lemma PlainDefaultTail2()
    ensures '{' !in DEFAULT_TAIL_2
  {
    assert '{' !in "examples in the ";
    assert '{' !in "database.\nNever ";
    assert '{' !in "query for all ";
    assert '{' !in "the columns ";
    assert '{' !in "from a specific ";
    assert '{' !in "table, only ask ";
  }

  lemma PlainDefaultTail3()
    ensures '{' !in DEFAULT_TAIL_3
  {
    assert '{' !in "for a the few ";
    assert '{' !in "relevant ";
    assert '{' !in "columns given ";
    assert '{' !in "the question.\n";
    assert '{' !in "Pay attention ";
    assert '{' !in "to use only the ";
    assert '{' !in "column names ";
  }

  lemma PlainDefaultTail4()
    ensures '{' !in DEFAULT_TAIL_4
  {
    assert '{' !in "that you can ";
    assert '{' !in "see in the ";
    assert '{' !in "schema ";
    assert '{' !in "description. Be ";
    assert '{' !in "careful to not ";
    assert '{' !in "query for ";
    assert '{' !in "columns that do ";
  }

  lemma PlainDefaultTail5()
    ensures '{' !in DEFAULT_TAIL_5
  {
    assert '{' !in "not exist. ";
    assert '{' !in "Also, pay ";
    assert '{' !in "attention to ";
    assert '{' !in "which column is ";
    assert '{' !in "in which ";
    assert '{' !in "table.\n\nUse the ";
    assert '{' !in "following ";
    assert '{' !in "format:\n\n";
  }

  lemma PlainDefaultTail6()
    ensures '{' !in DEFAULT_TAIL_6
  {
    assert '{' !in "Question: ";
    assert '{' !in "Question here\n\n";
    assert '{' !in "SQLQuery: SQL ";
    assert '{' !in "Query to run\n\n";
    assert '{' !in "SQLResult: ";
    assert '{' !in "Result of the ";
    assert '{' !in "SQLQuery \n\n";
  }

  lemma PlainDefaultTail7()
    ensures '{' !in DEFAULT_TAIL_7
  {
    assert '{' !in "Answer:\n";
  }

  lemma PlainOracleCmdTemplate1()
    ensures '{' !in ORACLE_CMD_TEMPLATE_1
  {
    assert '{' !in "You are an ";
    assert '{' !in "Oracle SQL ";
    assert '{' !in "expert. Given ";
    assert '{' !in "an input ";
    assert '{' !in "question and ";
    assert '{' !in "the SQL query ";
    assert '{' !in "statments, look ";
  }

  lemma PlainOracleCmdTemplate2()
    ensures '{' !in ORACLE_CMD_TEMPLATE_2
  {
    assert '{' !in "at the results ";
    assert '{' !in "of the query ";
    assert '{' !in "and return the ";
    assert '{' !in "answer to the ";
    assert '{' !in "input ";
    assert '{' !in "question.  Must ";
    assert '{' !in "use the ";
  }

  lemma PlainOracleCmdTemplate3()
    ensures '{' !in ORACLE_CMD_TEMPLATE_3
  {
    assert '{' !in "following ";
    assert '{' !in "format:\n";
    assert '{' !in "Question: ";
    assert '{' !in "Question here\n";
    assert '{' !in "SQLQuery: SQL ";
    assert '{' !in "Query to run\n";
    assert '{' !in "Answer: Final ";
    assert '{' !in "answer here\n";
  }

  /** The prose around the placeholders of PROMPT and ORACLE_CMD_PROMPT holds no '{'. */
  lemma PlainProse()
    ensures '{' !in DEFAULT_HEAD && '{' !in DEFAULT_TAIL && '{' !in ORACLE_CMD_TEMPLATE
  {
    PlainDefaultHead1();
    PlainDefaultHead2();
    PlainDefaultHead3();
    PlainDefaultHead4();
    PlainDefaultTail1();
    PlainDefaultTail2();
    PlainDefaultTail3();
    PlainDefaultTail4();
    PlainDefaultTail5();
    PlainDefaultTail6();
    PlainDefaultTail7();
    PlainOracleCmdTemplate1();
    PlainOracleCmdTemplate2();
    PlainOracleCmdTemplate3();
  }

  /** The placeholder names the templates use or declare hold no brace. */
  lemma PlainNames()
    ensures PlainName("top_k") && PlainName("table_info") && PlainName("input") && PlainName("dialect")
    ensures PlainName("query") && PlainName("table_names")
  {
  }

  /** The two suffixes are the same text. */
  lemma SuffixesIdentical()
    ensures PROMPT_SUFFIX == CMD_PROMPT_SUFFIX
  {
  }

  /** SQL_PROMPTS holds exactly the "oracle" and "oracle_cmd" templates. */
  lemma SqlPromptsEntries()
    ensures SQL_PROMPTS.Keys == {"oracle", "oracle_cmd"}
    ensures SQL_PROMPTS["oracle"] == ORACLE_PROMPT && SQL_PROMPTS["oracle_cmd"] == ORACLE_CMD_PROMPT
  {
  }

  /** PROMPT declares "dialect", yet its text has no "{dialect}" placeholder. */
  lemma PromptDeclaresUnusedDialect()
    ensures "dialect" in PROMPT.inputVariables
    ensures !Contains(PROMPT.text, Placeholder("dialect"))
  {
    var p1, n1 := [DEFAULT_HEAD, DEFAULT_TAIL], ["top_k"];
    var p2, n2 := [SUFFIX_HEAD, SUFFIX_MIDDLE, ""], ["table_info", "input"];
    DefaultParts();
    SuffixParts();
    PlainNames();
    assert "dialect" !in n1 + n2;
    ConcatHolds(p1, n1, p2, n2, "dialect");
  }

  lemma DefaultParts()
    ensures PlainParts([DEFAULT_HEAD, DEFAULT_TAIL], ["top_k"])
  {
    PlainProse();
    PlainNames();
  }

  lemma SuffixParts()
    ensures PlainParts([SUFFIX_HEAD, SUFFIX_MIDDLE, ""], ["table_info", "input"])
  {
    PlainNames();
  }

  /** ORACLE_CMD_PROMPT declares "top_k", yet its text has no "{top_k}" placeholder. */
  lemma OracleCmdPromptDeclaresUnusedTopK()
    ensures "top_k" in ORACLE_CMD_PROMPT.inputVariables
    ensures !Contains(ORACLE_CMD_PROMPT.text, Placeholder("top_k"))
  {
    PlainProse();
    PlainNames();
    ProseThen(ORACLE_CMD_TEMPLATE, ["\nOnly use the following tables: ", " \nQuestion: ", ""], ["table_info", "input"], "top_k");
  }

  /** ORACLE_PROMPT declares input, table_info and top_k, and its text holds all three placeholders. */
  lemma OraclePromptUsesItsVariables()
    ensures ORACLE_PROMPT.inputVariables == ["input", "table_info", "top_k"]
    ensures forall v | v in ORACLE_PROMPT.inputVariables :: Contains(ORACLE_PROMPT.text, Placeholder(v))
  {
    var p1, n1 := [ORACLE_HEAD, ORACLE_TAIL], ["top_k"];
    var p2, n2 := [SUFFIX_HEAD, SUFFIX_MIDDLE, ""], ["table_info", "input"];
    RenderConcat(p1, n1, p2, n2);
    assert n1 + n2 == ["top_k", "table_info", "input"];
    InterleaveSlots(JoinedProse(p1, p2), n1 + n2);
    forall v | v in ORACLE_PROMPT.inputVariables
      ensures Contains(ORACLE_PROMPT.text, Placeholder(v))
    {
      RenderShows(Interleave(JoinedProse(p1, p2), n1 + n2), v);
    }
  }

  /**
   * DECIDER_PROMPT declares query and table_names, holds both placeholders,
   * ends with "Relevant Table Names:" and parses the answer as a comma-separated list.
   */
  lemma DeciderPromptShape()
    ensures DECIDER_PROMPT.inputVariables == ["query", "table_names"]
    ensures forall v | v in DECIDER_PROMPT.inputVariables :: Contains(DECIDER_PROMPT.text, Placeholder(v))
    ensures var t := DECIDER_PROMPT.text; |t| >= 21 && t[|t| - 21..] == "Relevant Table Names:"
    ensures DECIDER_PROMPT.parser == CommaSeparatedList
  {
    var prose, names := [DECIDER_HEAD, DECIDER_MIDDLE, DECIDER_TAIL], ["query", "table_names"];
    InterleaveSlots(prose, names);
    forall v | v in DECIDER_PROMPT.inputVariables
      ensures Contains(DECIDER_PROMPT.text, Placeholder(v))
    {
      RenderShows(Interleave(prose, names), v);
    }
    RenderEndsWith(prose, names);
    var t := DECIDER_TEMPLATE;
    assert t[|t| - 22..] == DECIDER_TAIL;
    assert t[|t| - 21..] == DECIDER_TAIL[1..];
  }
}
