# genai-langchainjava-sample in Dafny

A model of the Java service that exposes Oracle's generative AI (Cohere
generation) through LangChain4j chains. It has three kinds of chain:

- a plain LLM chain;
- an HTTP request chain, which calls a REST API and has the model summarise
  the answer;
- an Oracle Database chain, which has the model write a SQL query, runs the
  query over JDBC and has the model answer from the rows.

`GenAILangChainService.getChains` strings chains together. Each chain's
result is substituted into the prompt under its output variable before the
next chain runs.

The model follows the Java code file by file:

| module | Java source | form |
|---|---|---|
| `Common` | Java strings, `Map`, exceptions | values: `Result`, `Option`, `Value`, the `String` operations the code calls |
| `Utils` | `Utils.java` | token substitution, a loop method proved against a fold |
| `TemplateText`, `SqlPrompt`, `HttpPrompt` | the two `Prompt.java` files | prompt constants and what their placeholders are |
| `OracleDb` | `OracleDatabase.java` | a value over a JDBC connection modelled as data, with loop methods for the DDL, `run` and the table info |
| `SqlChain` | `OracleDatabaseChain.java` | a `class` whose `sqlCmd` field `innerCall` reassigns |
| `SequentialChain` | `OracleDatabaseSequentialChain.java` | a `class` holding the SQL chain and a table-decider chain |
| `FormEncoding` | `URLEncoder.encode(_, "UTF-8")` | the form-urlencoded byte serializer of section 5.2 of the WHATWG URL Standard, over UTF-8 (section 3 of RFC 3629) |
| `HttpChain` | `HttpRequestChain.java` | URL building and the request/summary chain |
| `Base64` | `Base64.getEncoder()` | section 4 of RFC 4648, for the "Basic" credentials of section 2 of RFC 7617 |
| `Generation` | `GenAICohereGenerationBase.java` | grouping of the service's texts into LangChain generations |
| `Service` | `GenAILangChainService.java` | payloads, chain dispatch and the `getChains` loop |

The things the program cannot see are parameters:

- the language model is a function from a template and inputs to a text;
- the JDBC connection is a catalog of tables with their columns, and an
  `execute` function from a statement to rows or a failure;
- the HTTP client is a function from headers and a URL to a body or a
  failure;
- the OCI generative AI client is a function from a request to texts or a
  failure.

Java exceptions are the `Error` cases of `Result`, and `null` is `None`.


## Model

| member | source | states |
|---|---|---|
| Utils.MergePromptWithToken | src/main/java/com/oracle/ateam/genai/langchain4java/Utils.java:33-42 | the loop's result is the left fold of the properties over the template in list order; an empty list returns the template unchanged |
| Utils.MergedAppend | src/main/java/com/oracle/ateam/genai/langchain4java/Utils.java:36-40 | merging a list in two parts is merging the second part into the result of the first |
| Utils.MergedLast | src/main/java/com/oracle/ateam/genai/langchain4java/Utils.java:36-40 | the last property is substituted last, into the text the earlier ones produced |
| Utils.MergedWithoutPlaceholders | src/main/java/com/oracle/ateam/genai/langchain4java/Utils.java:36-40 | a template holding none of the properties' placeholders comes back unchanged |
| Utils.MergedRewritesInsertedValues | src/main/java/com/oracle/ateam/genai/langchain4java/Utils.java:36-40 | substitution is sequential: a value inserted for "{a}" that contains "{b}" is rewritten by a later property b |
| Utils.ReplaceTokenWithData | src/main/java/com/oracle/ateam/genai/langchain4java/Utils.java:52-57 | replaceTokenWithData is the one-property merge; a template without "{outputVariable}" is returned unchanged |
| Utils.EnumContains | src/main/java/com/oracle/ateam/genai/langchain4java/Utils.java:67-75 | `Enum.valueOf` finds only a constant with exactly that name, null is never contained, and the exception is answered with false |
| SqlPrompt.SuffixesIdentical | src/main/java/com/oracle/ateam/genai/langchain4java/chain/sql/oracle/prompt/Prompt.java:20-22 | PROMPT_SUFFIX and CMD_PROMPT_SUFFIX are the same text |
| SqlPrompt.SqlPromptsEntries | src/main/java/com/oracle/ateam/genai/langchain4java/chain/sql/oracle/prompt/Prompt.java:45-46 | SQL_PROMPTS maps exactly "oracle" to ORACLE_PROMPT and "oracle_cmd" to ORACLE_CMD_PROMPT |
| SqlPrompt.PromptDeclaresUnusedDialect | src/main/java/com/oracle/ateam/genai/langchain4java/chain/sql/oracle/prompt/Prompt.java:24-27 | PROMPT declares "dialect" but its text holds no "{dialect}" placeholder |
| SqlPrompt.OracleCmdPromptDeclaresUnusedTopK | src/main/java/com/oracle/ateam/genai/langchain4java/chain/sql/oracle/prompt/Prompt.java:37-43 | ORACLE_CMD_PROMPT declares "top_k" but its text holds no "{top_k}" placeholder |
| SqlPrompt.OraclePromptUsesItsVariables | src/main/java/com/oracle/ateam/genai/langchain4java/chain/sql/oracle/prompt/Prompt.java:35-40 | ORACLE_PROMPT declares input, table_info and top_k and its text holds all three placeholders |
| SqlPrompt.DeciderPromptShape | src/main/java/com/oracle/ateam/genai/langchain4java/chain/sql/oracle/prompt/Prompt.java:29-33 | DECIDER_PROMPT declares query and table_names, holds both placeholders, ends with "Relevant Table Names:" and parses with the comma-separated-list parser |
| HttpPrompt.EachVariableOnce | src/main/java/com/oracle/ateam/genai/langchain4java/chain/http/prompt/Prompt.java:21-35 | the template declares question, api_url and api_response in that order, and each occurs exactly once as a placeholder |
| HttpPrompt.NoOtherPlaceholder | src/main/java/com/oracle/ateam/genai/langchain4java/chain/http/prompt/Prompt.java:21-32 | the text holds no placeholder besides the three declared ones |
| HttpPrompt.PromptBeginsAndEnds | src/main/java/com/oracle/ateam/genai/langchain4java/chain/http/prompt/Prompt.java:21-32 | the text begins with "Question:{question}" and ends with "Summary:" with no newline after it |
| OracleDb.Create | src/main/java/com/oracle/ateam/genai/langchain4java/chain/sql/oracle/OracleDatabase.java:40-50 | both table lists non-empty throws IllegalArgumentException with the source's message before connecting; otherwise the driver's outcome decides, and the options are kept as given |
| OracleDb.FromUri | src/main/java/com/oracle/ateam/genai/langchain4java/chain/sql/oracle/OracleDatabase.java:35-54 | succeeds exactly when the connection opens; no table lists, three sample rows, no indexes, so the usable tables are all catalog tables |
| OracleDb.OracleDatabase.Dialect | src/main/java/com/oracle/ateam/genai/langchain4java/chain/sql/oracle/OracleDatabase.java:60-64 | the product name with every upper-case ASCII letter lowered, same length |
| OracleDb.RemoveAll | src/main/java/com/oracle/ateam/genai/langchain4java/chain/sql/oracle/OracleDatabase.java:77 | a subsequence of the list (order kept) in which every name in the removal list occurs zero times and every other name as often as before |
| OracleDb.RemoveNothing | src/main/java/com/oracle/ateam/genai/langchain4java/chain/sql/oracle/OracleDatabase.java:76-79 | removing an empty list changes nothing, so skipping removeAll without ignored tables gives the same list |
| OracleDb.RemoveAllCovered | src/main/java/com/oracle/ateam/genai/langchain4java/chain/sql/oracle/OracleDatabase.java:111-113 | removing a superset leaves an empty list |
| OracleDb.OracleDatabase.UsableTableNames | src/main/java/com/oracle/ateam/genai/langchain4java/chain/sql/oracle/OracleDatabase.java:69-80 | a non-empty include list is returned as is; otherwise the removeAll of the ignored names from the catalog tables, so metadata order and duplicates are kept, and the whole catalog when nothing is ignored |
| OracleDb.OracleDatabase.GetAllTables | src/main/java/com/oracle/ateam/genai/langchain4java/chain/sql/oracle/OracleDatabase.java:83-94 | one name per catalog row, in metadata order |
| OracleDb.OracleDatabase.GetUsableTableNames | src/main/java/com/oracle/ateam/genai/langchain4java/chain/sql/oracle/OracleDatabase.java:69-80 | the method returns the usable-names specification |
| OracleDb.AppendColumn | src/main/java/com/oracle/ateam/genai/langchain4java/chain/sql/oracle/OracleDatabase.java:164-181 | one column appends its definition and a comma |
| OracleDb.AppendColumns | src/main/java/com/oracle/ateam/genai/langchain4java/chain/sql/oracle/OracleDatabase.java:155-182 | the column loop appends every definition followed by a comma |
| OracleDb.AppendTable | src/main/java/com/oracle/ateam/genai/langchain4java/chain/sql/oracle/OracleDatabase.java:151-192 | one catalog row appends the CREATE TABLE head, the columns, drops the last comma and appends the closing line |
| OracleDb.ColumnListJoined | src/main/java/com/oracle/ateam/genai/langchain4java/chain/sql/oracle/OracleDatabase.java:181-186 | after the last comma is removed the column definitions are exactly joined by commas |
| OracleDb.OracleDatabase.GetTableDdl | src/main/java/com/oracle/ateam/genai/langchain4java/chain/sql/oracle/OracleDatabase.java:143-195 | the builder loop returns the DDL specification: one block per catalog row of that name |
| OracleDb.OracleDatabase.DdlOfSingleTable | src/main/java/com/oracle/ateam/genai/langchain4java/chain/sql/oracle/OracleDatabase.java:143-195 | a table listed once gives one block of head, comma-joined columns and closing line; stripping trailing newlines drops exactly the final two |
| OracleDb.OracleDatabase.DdlOfUnknownTable | src/main/java/com/oracle/ateam/genai/langchain4java/chain/sql/oracle/OracleDatabase.java:147-150 | a name absent from the catalog has empty DDL |
| OracleDb.OracleDatabase.Run | src/main/java/com/oracle/ateam/genai/langchain4java/chain/sql/oracle/OracleDatabase.java:220-255 | fails exactly when the statement fails, with its SQLException message |
| OracleDb.OracleDatabase.RunCommand | src/main/java/com/oracle/ateam/genai/langchain4java/chain/sql/oracle/OracleDatabase.java:220-255 | the loops return the run specification |
| OracleDb.OracleDatabase.RunWithHeader | src/main/java/com/oracle/ateam/genai/langchain4java/chain/sql/oracle/OracleDatabase.java:228-235 | with column names the result is the tab-joined header line, a newline, then the result without it |
| OracleDb.OracleDatabase.RunEndsWithLastRow | src/main/java/com/oracle/ateam/genai/langchain4java/chain/sql/oracle/OracleDatabase.java:237-249 | rows are newline-joined, so the result ends with the last row's text |
| OracleDb.OracleDatabase.SampleRows | src/main/java/com/oracle/ateam/genai/langchain4java/chain/sql/oracle/OracleDatabase.java:201-209 | fails exactly when the sample query fails; otherwise begins "<n> rows from <t> table:\n" |
| OracleDb.OracleDatabase.GetSampleRows | src/main/java/com/oracle/ateam/genai/langchain4java/chain/sql/oracle/OracleDatabase.java:201-209 | the method returns the sample-rows specification |
| OracleDb.OracleDatabase.DescribeTable | src/main/java/com/oracle/ateam/genai/langchain4java/chain/sql/oracle/OracleDatabase.java:121-137 | one loop body returns the table's description |
| OracleDb.OracleDatabase.TableInfo | src/main/java/com/oracle/ateam/genai/langchain4java/chain/sql/oracle/OracleDatabase.java:106-140 | a list naming a non-usable table throws IllegalArgumentException; success implies every listed name is usable |
| OracleDb.OracleDatabase.GetTableInfo | src/main/java/com/oracle/ateam/genai/langchain4java/chain/sql/oracle/OracleDatabase.java:106-140 | the method returns the table-info specification |
| OracleDb.OracleDatabase.TableInfoJoinsEach | src/main/java/com/oracle/ateam/genai/langchain4java/chain/sql/oracle/OracleDatabase.java:119-139 | a success joins with blank lines one description per listed table, in list order |
| OracleDb.OracleDatabase.TableInfoFailsOnOneTable | src/main/java/com/oracle/ateam/genai/langchain4java/chain/sql/oracle/OracleDatabase.java:120-121 | with every name usable, a failure is the failure of describing one listed table |
| OracleDb.FirstFailureStays | src/main/java/com/oracle/ateam/genai/langchain4java/chain/sql/oracle/OracleDatabase.java:120-138 | an exception among the first k tables is the exception of the whole loop |
| OracleDb.OracleDatabase.TableInfoOfAllUsable | src/main/java/com/oracle/ateam/genai/langchain4java/chain/sql/oracle/OracleDatabase.java:108-117 | null and the usable-name list describe the same tables |
| OracleDb.OracleDatabase.TableInfoOfNoTables | src/main/java/com/oracle/ateam/genai/langchain4java/chain/sql/oracle/OracleDatabase.java:110-139 | an empty list gives the empty string |
| OracleDb.OracleDatabase.TableInfoRejectsUnknown | src/main/java/com/oracle/ateam/genai/langchain4java/chain/sql/oracle/OracleDatabase.java:110-115 | a non-usable name (exact comparison) throws IllegalArgumentException and is listed among the missing names |
| OracleDb.OracleDatabase.PlainDescription | src/main/java/com/oracle/ateam/genai/langchain4java/chain/sql/oracle/OracleDatabase.java:121-137 | without indexes or sample rows a table is its DDL with trailing newlines removed |
| OracleDb.OracleDatabase.WrappedDescription | src/main/java/com/oracle/ateam/genai/langchain4java/chain/sql/oracle/OracleDatabase.java:124-136 | with extra info the DDL is followed by a comment block opened after two newlines and closed at the very end |
| OracleDb.OracleDatabase.IndexOnlyDescription | src/main/java/com/oracle/ateam/genai/langchain4java/chain/sql/oracle/OracleDatabase.java:128-130 | indexes without sample rows give an empty index text between two newlines in the comment block |
| OracleDb.OracleDatabase.TableIndexes | src/main/java/com/oracle/ateam/genai/langchain4java/chain/sql/oracle/OracleDatabase.java:197-199 | getTableIndexes always returns the empty string |
| SqlChain.ExtractSqlQuery | src/main/java/com/oracle/ateam/genai/langchain4java/chain/sql/oracle/OracleDatabaseChain.java:272-281 | null exactly when there is no "SQLQuery:" followed later by "SQLResult:"; the result holds no "SQLResult:" |
| SqlChain.ExtractIsLeftmostShortest | src/main/java/com/oracle/ateam/genai/langchain4java/chain/sql/oracle/OracleDatabaseChain.java:273-277 | the match starts at the leftmost "SQLQuery:" and ends at the nearest "SQLResult:" after it |
| SqlChain.FallbackCutsAtFirstMarker | src/main/java/com/oracle/ateam/genai/langchain4java/chain/sql/oracle/OracleDatabaseChain.java:211-221 | the two indexOf calls cut the prediction at the first line starting with either marker; without a marker nothing is cut |
| SqlChain.MarkersDiffer | src/main/java/com/oracle/ateam/genai/langchain4java/chain/sql/oracle/OracleDatabaseChain.java:212-214 | the two markers never begin at the same place |
| SqlChain.ReadCommand | src/main/java/com/oracle/ateam/genai/langchain4java/chain/sql/oracle/OracleDatabaseChain.java:209-221 | the method returns the generated-command specification |
| SqlChain.OracleDatabaseChain.constructor | src/main/java/com/oracle/ateam/genai/langchain4java/chain/sql/oracle/OracleDatabaseChain.java:87-90 | no stored command, top_k 5, keys "query"/"result", chain type "sql_database_chain" |
| SqlChain.OracleDatabaseChain.WithCommand | src/main/java/com/oracle/ateam/genai/langchain4java/chain/sql/oracle/OracleDatabaseChain.java:101-107 | the stored command and properties are kept as given, other fields default |
| SqlChain.OracleDatabaseChain.InnerCall | src/main/java/com/oracle/ateam/genai/langchain4java/chain/sql/oracle/OracleDatabaseChain.java:195-264 | only sqlCmd changes, and result and new sqlCmd are the innerCall specification of the old state |
| SqlChain.OracleDatabaseChain.GenerateAndRun | src/main/java/com/oracle/ateam/genai/langchain4java/chain/sql/oracle/OracleDatabaseChain.java:200-263 | the generation branch's result and stored command |
| SqlChain.OracleDatabaseChain.SubstituteAndRun | src/main/java/com/oracle/ateam/genai/langchain4java/chain/sql/oracle/OracleDatabaseChain.java:223-263 | the stored-command branch's result and stored command |
| SqlChain.OracleDatabaseChain.SubstituteProperties | src/main/java/com/oracle/ateam/genai/langchain4java/chain/sql/oracle/OracleDatabaseChain.java:230-235 | the property loop's inputs and command, stopping at a null value |
| SqlChain.OracleDatabaseChain.RunAndAnswer | src/main/java/com/oracle/ateam/genai/langchain4java/chain/sql/oracle/OracleDatabaseChain.java:238-263 | semicolons stripped into the field, the command run, the result or the trimmed answer returned |
| SqlChain.RunCommandHasNoSemicolon | src/main/java/com/oracle/ateam/genai/langchain4java/chain/sql/oracle/OracleDatabaseChain.java:238-240 | after a successful call the stored and run command holds no semicolon |
| SqlChain.OneOutputKey | src/main/java/com/oracle/ateam/genai/langchain4java/chain/sql/oracle/OracleDatabaseChain.java:263 | a success returns a map with the output key only |
| SqlChain.DirectOutputIsRunResult | src/main/java/com/oracle/ateam/genai/langchain4java/chain/sql/oracle/OracleDatabaseChain.java:248-249 | with returnDirect the output is the raw run result with column names |
| SqlChain.AnswerIsTrimmed | src/main/java/com/oracle/ateam/genai/langchain4java/chain/sql/oracle/OracleDatabaseChain.java:250-254 | without returnDirect the output is the model's answer trimmed |
| SqlChain.UnknownTableRejected | src/main/java/com/oracle/ateam/genai/langchain4java/chain/sql/oracle/OracleDatabaseChain.java:198-199 | a non-usable table name fails before the model is asked, whatever the model, and the field stays |
| SqlChain.StoredCommandNeedsProperties | src/main/java/com/oracle/ateam/genai/langchain4java/chain/sql/oracle/OracleDatabaseChain.java:223-230 | a stored command with null sqlProperties throws NullPointerException |
| SqlChain.SecondCallAfterGeneration | src/main/java/com/oracle/ateam/genai/langchain4java/chain/sql/oracle/OracleDatabaseChain.java:200-230 | a chain built without a command stores the generated one, so the next call takes the stored branch and throws NullPointerException |
| SqlChain.SubstituteMerges | src/main/java/com/oracle/ateam/genai/langchain4java/chain/sql/oracle/OracleDatabaseChain.java:230-235 | with no null value the command is the token merge of the properties |
| SqlChain.SubstituteStopsAtNull | src/main/java/com/oracle/ateam/genai/langchain4java/chain/sql/oracle/OracleDatabaseChain.java:230-235 | a null value at position n throws there, after the first n properties took effect |
| SqlChain.SubstitutePutsProperties | src/main/java/com/oracle/ateam/genai/langchain4java/chain/sql/oracle/OracleDatabaseChain.java:230-231 | with distinct keys every property becomes a model input and other inputs are kept |
| SqlChain.FromLlm | src/main/java/com/oracle/ateam/genai/langchain4java/chain/sql/oracle/OracleDatabaseChain.java:117-120 | a fresh chain with the "oracle" prompt and no stored command |
| SqlChain.FromSqlCmd | src/main/java/com/oracle/ateam/genai/langchain4java/chain/sql/oracle/OracleDatabaseChain.java:122-126 | a fresh chain with the "oracle_cmd" prompt, the command and the properties |
| SqlChain.FromLlmWithPrompt | src/main/java/com/oracle/ateam/genai/langchain4java/chain/sql/oracle/OracleDatabaseChain.java:128-132 | a fresh chain with the given prompt |
| SqlChain.FromLlmWithCommand | src/main/java/com/oracle/ateam/genai/langchain4java/chain/sql/oracle/OracleDatabaseChain.java:146-150 | a fresh chain with the given prompt, command and properties |
| SequentialChain.LowerAll | src/main/java/com/oracle/ateam/genai/langchain4java/chain/sql/oracle/OracleDatabaseSequentialChain.java:168-170 | every usable name lowered, same order |
| SequentialChain.KnownTables | src/main/java/com/oracle/ateam/genai/langchain4java/chain/sql/oracle/OracleDatabaseSequentialChain.java:174-179 | keeps each pick known up to case exactly as often as the decider gave it, in the decider's spelling and order (a subsequence of the picks) |
| SequentialChain.CaseVariantKept | src/main/java/com/oracle/ateam/genai/langchain4java/chain/sql/oracle/OracleDatabaseSequentialChain.java:176 | a pick differing from a usable name only in case is kept |
| SequentialChain.KeptNamesAreKnown | src/main/java/com/oracle/ateam/genai/langchain4java/chain/sql/oracle/OracleDatabaseSequentialChain.java:176-177 | every kept name equals a usable name up to case |
| SequentialChain.KeepKnownTables | src/main/java/com/oracle/ateam/genai/langchain4java/chain/sql/oracle/OracleDatabaseSequentialChain.java:174-179 | the filter loop returns the known-tables specification |
| SequentialChain.CaseVariantRejected | src/main/java/com/oracle/ateam/genai/langchain4java/chain/sql/oracle/OracleDatabaseSequentialChain.java:174-182 | a case-variant pick passes the filter but getTableInfo throws IllegalArgumentException and nothing is stored |
| SequentialChain.ExactPicksAccepted | src/main/java/com/oracle/ateam/genai/langchain4java/chain/sql/oracle/OracleDatabaseSequentialChain.java:174-182 | exactly spelled picks pass the table check and the SQL chain describes exactly those tables |
| SequentialChain.SequentialOutputKey | src/main/java/com/oracle/ateam/genai/langchain4java/chain/sql/oracle/OracleDatabaseSequentialChain.java:182 | a success returns the SQL chain's single output key |
| SequentialChain.OracleDatabaseSequentialChain.constructor | src/main/java/com/oracle/ateam/genai/langchain4java/chain/sql/oracle/OracleDatabaseSequentialChain.java:80-83 | keeps both chains; keys "query"/"result"; chain type "oracle_database_sequential_chain" |
| SequentialChain.OracleDatabaseSequentialChain.InnerCall | src/main/java/com/oracle/ateam/genai/langchain4java/chain/sql/oracle/OracleDatabaseSequentialChain.java:160-183 | only the SQL chain's stored command changes, as the sequential specification says |
| SequentialChain.FromLlmWithPrompts | src/main/java/com/oracle/ateam/genai/langchain4java/chain/sql/oracle/OracleDatabaseSequentialChain.java:97-104 | both chains use the one model with the given prompts |
| SequentialChain.FromLlm | src/main/java/com/oracle/ateam/genai/langchain4java/chain/sql/oracle/OracleDatabaseSequentialChain.java:116-118 | the default query prompt and the decider prompt |
| HttpChain.BuildUrlParameters | src/main/java/com/oracle/ateam/genai/langchain4java/chain/http/base/HttpRequestChain.java:187-208 | a null map throws; otherwise the base URL, then "?" and the &-joined encoded pairs when some value is non-null |
| HttpChain.AppendParameter | src/main/java/com/oracle/ateam/genai/langchain4java/chain/http/base/HttpRequestChain.java:193-200 | one entry appends its encoded pair and "&", or nothing for a null value |
| HttpChain.DeleteLastGivesUrl | src/main/java/com/oracle/ateam/genai/langchain4java/chain/http/base/HttpRequestChain.java:189-205 | deleting the last character removes the trailing "&", or the "?" when every value is null |
| HttpChain.AllNullKeepsBase | src/main/java/com/oracle/ateam/genai/langchain4java/chain/http/base/HttpRequestChain.java:189-205 | all null values give the base URL |
| HttpChain.QueryReadsBack | src/main/java/com/oracle/ateam/genai/langchain4java/chain/http/base/HttpRequestChain.java:196-199 | the query splits into one key=value piece per non-null parameter, in order, decoding to the UTF-8 bytes of key and value |
| HttpChain.HttpRequestChain.InnerCall | src/main/java/com/oracle/ateam/genai/langchain4java/chain/http/base/HttpRequestChain.java:118-125 | a failing GET is the error; a question that is absent or mapped to null throws after the GET, any other question succeeds; success returns only "output", the untrimmed answer |
| HttpChain.HttpRequestChain.AnswerInputsMatchPrompt | src/main/java/com/oracle/ateam/genai/langchain4java/chain/http/base/HttpRequestChain.java:122-123 | the answer inputs are exactly the response prompt's declared variables |
| HttpChain.UsingApiUrlWithParameters | src/main/java/com/oracle/ateam/genai/langchain4java/chain/http/base/HttpRequestChain.java:153-159 | null parameters throw; otherwise the chain holds the built URL, the headers and the prompt |
| HttpChain.UsingApiUrlDefault | src/main/java/com/oracle/ateam/genai/langchain4java/chain/http/base/HttpRequestChain.java:136-138 | null parameters throw; otherwise the chain over the given model, no headers, the library's response prompt and the URL built from the parameters |
| HttpChain.UsingApiUrl | src/main/java/com/oracle/ateam/genai/langchain4java/chain/http/base/HttpRequestChain.java:172-177 | the URL verbatim, the given headers and prompt |
| FormEncoding.FormDecodeRecoversBytes | src/main/java/com/oracle/ateam/genai/langchain4java/chain/http/base/HttpRequestChain.java:197-198 | decoding an encoded text gives back its UTF-8 bytes |
| FormEncoding.EncodedHasNoSeparator | src/main/java/com/oracle/ateam/genai/langchain4java/chain/http/base/HttpRequestChain.java:197-199 | an encoded text holds no '&', '=', '?' or '#' |
| FormEncoding.PlainTextUnchanged | src/main/java/com/oracle/ateam/genai/langchain4java/chain/http/base/HttpRequestChain.java:197-198 | letters, digits and "*-._" are left as they are |
| Generation.SubList | src/main/java/com/oracle/ateam/genai/langchain4java/llms/GenAICohereGenerationBase.java:127 | succeeds exactly for a non-null list and 0 <= from <= to <= size, with that slice |
| Generation.ChunkedSucceeds | src/main/java/com/oracle/ateam/genai/langchain4java/llms/GenAICohereGenerationBase.java:126-127 | grouping succeeds exactly when there are no prompts, or n >= 0 and the texts cover count*n |
| Generation.ChunkedLength | src/main/java/com/oracle/ateam/genai/langchain4java/llms/GenAICohereGenerationBase.java:125-143 | one list per prompt |
| Generation.ChunkedGroup | src/main/java/com/oracle/ateam/genai/langchain4java/llms/GenAICohereGenerationBase.java:127-141 | list i holds the generations of texts i*n up to (i+1)*n, in order |
| Generation.ChunkFailureStays | src/main/java/com/oracle/ateam/genai/langchain4java/llms/GenAICohereGenerationBase.java:126-127 | a failure for the first k prompts is the failure for all |
| Generation.GenerationList | src/main/java/com/oracle/ateam/genai/langchain4java/llms/GenAICohereGenerationBase.java:129-141 | one generation per chosen text, text and id kept |
| Generation.LlmOutput | src/main/java/com/oracle/ateam/genai/langchain4java/llms/GenAICohereGenerationBase.java:145-147 | llmOutput holds exactly token_usage and mode_id |
| Generation.GenAICohereGenerationBase.CreateLlmResult | src/main/java/com/oracle/ateam/genai/langchain4java/llms/GenAICohereGenerationBase.java:122-150 | the nested loops return the createLLMResult specification |
| Generation.Build | src/main/java/com/oracle/ateam/genai/langchain4java/llms/GenAICohereGenerationBase.java:76-81 | the builder defaults numGenerations to 1 and isStream and isEcho to false when their setters are not called |
| Generation.DefaultBuildOneGeneration | src/main/java/com/oracle/ateam/genai/langchain4java/llms/GenAICohereGenerationBase.java:76-127 | without a numGenerations setter (getLLM calls none) the request asks for one text, and one prompt answered with one text gives exactly one generation |
| Generation.GenAICohereGenerationBase.LlmType | src/main/java/com/oracle/ateam/genai/langchain4java/llms/GenAICohereGenerationBase.java:153-155 | llmType is "genai_cohere" |
| Generation.GenAICohereGenerationBase.Request | src/main/java/com/oracle/ateam/genai/langchain4java/llms/GenAICohereGenerationBase.java:96-108 | the request carries the first prompt, the configured stop sequences and numGenerations |
| Generation.GenAICohereGenerationBase.InnerGenerate | src/main/java/com/oracle/ateam/genai/langchain4java/llms/GenAICohereGenerationBase.java:92-119 | the result is createLLMResult of the texts obtained, null after any exception; stop is unused |
| Generation.GenAICohereGenerationBase.AsyncInnerGenerate | src/main/java/com/oracle/ateam/genai/langchain4java/llms/GenAICohereGenerationBase.java:157-160 | always throws UnsupportedOperationException with the source's message |
| Generation.GenAICohereGenerationBase.OnePromptOneGroup | src/main/java/com/oracle/ateam/genai/langchain4java/llms/GenAICohereGenerationBase.java:92-150 | one prompt answered with numGenerations texts gives one list of their generations |
| Generation.GenAICohereGenerationBase.LaterPromptsFail | src/main/java/com/oracle/ateam/genai/langchain4java/llms/GenAICohereGenerationBase.java:97-127 | only the first prompt is sent, so a second prompt's subList throws |
| Generation.GenAICohereGenerationBase.FailedServiceThrows | src/main/java/com/oracle/ateam/genai/langchain4java/llms/GenAICohereGenerationBase.java:115-127 | a swallowed service failure leaves null texts and grouping throws NullPointerException |
| Generation.GenAICohereGenerationBase.NoPromptsNoGenerations | src/main/java/com/oracle/ateam/genai/langchain4java/llms/GenAICohereGenerationBase.java:125-149 | no prompts: no generations and the llmOutput map |
| Service.PutAll | src/main/java/com/oracle/ateam/genai/langchain4java/GenAILangChainService.java:193-197 | the put loop builds the property map of the list |
| Service.PropertyMapKeys | src/main/java/com/oracle/ateam/genai/langchain4java/GenAILangChainService.java:193-197 | the map's keys are exactly the properties' keys |
| Service.PropertyMapLastWins | src/main/java/com/oracle/ateam/genai/langchain4java/GenAILangChainService.java:193-197 | a key holds the value of its last property: a later duplicate overwrites |
| Service.SqlEntriesEnumerate | src/main/java/com/oracle/ateam/genai/langchain4java/GenAILangChainService.java:277-282 | the entries handed to fromSqlCmd list each key of the map once with its value |
| Service.AuthToken | src/main/java/com/oracle/ateam/genai/langchain4java/GenAILangChainService.java:240-246 | blank token, non-blank user and blank password give "Basic " and a Base64 text that decodes to the UTF-8 of "user:password"; otherwise, and whenever the password is non-blank, the token as given |
| Service.RequestHeaders | src/main/java/com/oracle/ateam/genai/langchain4java/GenAILangChainService.java:248-250 | headers are exactly Authorization (the token) and Content-Type, either possibly null |
| Base64.DecodeEncode | src/main/java/com/oracle/ateam/genai/langchain4java/GenAILangChainService.java:245 | Base64 encoding is decoded back to the same bytes |
| Base64.Encode | src/main/java/com/oracle/ateam/genai/langchain4java/GenAILangChainService.java:245 | 4 characters per started group of three bytes, all from the alphabet or '=' |
| Service.InvokeLlm | src/main/java/com/oracle/ateam/genai/langchain4java/GenAILangChainService.java:187-199 | the method is the invokeLLM specification: a null property list gives an empty map |
| Service.InvokeLlmChain | src/main/java/com/oracle/ateam/genai/langchain4java/GenAILangChainService.java:211-223 | the method is the invokeLLMChain specification |
| Service.InvokeHttpRequestChain | src/main/java/com/oracle/ateam/genai/langchain4java/GenAILangChainService.java:234-260 | the method is the HTTP specification: question merged from the properties, every exception becomes null |
| Service.InvokeOracleDatabaseChain | src/main/java/com/oracle/ateam/genai/langchain4java/GenAILangChainService.java:271-284 | the method is the oracleDb specification: a null property list throws, exceptions escape |
| Service.InvokeByTag | src/main/java/com/oracle/ateam/genai/langchain4java/GenAILangChainService.java:159-169 | the switch is the lower-cased dispatch |
| Service.GetChain | src/main/java/com/oracle/ateam/genai/langchain4java/GenAILangChainService.java:87-103 | a null chain type throws; otherwise the dispatch |
| Service.TagCaseIgnored | src/main/java/com/oracle/ateam/genai/langchain4java/GenAILangChainService.java:91 | the chain type is matched ignoring ASCII case |
| Service.UnknownTagRunsNothing | src/main/java/com/oracle/ateam/genai/langchain4java/GenAILangChainService.java:91-102 | an unknown tag gives null whatever the services and the payload |
| Service.HttpChainNeverThrows | src/main/java/com/oracle/ateam/genai/langchain4java/GenAILangChainService.java:238-259 | the HTTP chain never throws; getLLM failure, null httpRequest or null properties give null |
| Service.OracleChainNeedsProperties | src/main/java/com/oracle/ateam/genai/langchain4java/GenAILangChainService.java:277-280 | a null property list throws NullPointerException once the model and connection exist |
| Service.OracleResultIsStored | src/main/java/com/oracle/ateam/genai/langchain4java/GenAILangChainService.java:283 | a successful oracleDb chain returns a non-null result |
| Service.RunChain | src/main/java/com/oracle/ateam/genai/langchain4java/GenAILangChainService.java:155-170 | one turn of the loop: NotSupportedException for a type not exactly an enum name, the chain's exception, NullPointerException for a null result, otherwise the result substituted under the output variable |
| Service.GetChains | src/main/java/com/oracle/ateam/genai/langchain4java/GenAILangChainService.java:149-176 | the loop and final call are the getChains specification |
| Service.ErrPersists | src/main/java/com/oracle/ateam/genai/langchain4java/GenAILangChainService.java:154-171 | once a chain has thrown, the rest of the loop does not run and the exception is the result |
| Service.RunChainsAppend | src/main/java/com/oracle/ateam/genai/langchain4java/GenAILangChainService.java:154-171 | running a list is running its first part then the rest on the resulting prompt |
| Service.StopsAt | src/main/java/com/oracle/ateam/genai/langchain4java/GenAILangChainService.java:154-171 | a failing chain ends the loop with its exception |
| Service.UnsupportedStops | src/main/java/com/oracle/ateam/genai/langchain4java/GenAILangChainService.java:154-158 | a chain type not exactly an enum name throws NotSupportedException after the earlier chains ran, before it or any later chain runs |
| Service.ChainTypesAccepted | src/main/java/com/oracle/ateam/genai/langchain4java/GenAILangChainService.java:156-159 | getChains accepts exactly "llm", "httpRequest" and "oracleDb", each of which reaches a case of the switch; any other spelling of a known tag is refused |
| Service.CaseVariantOnlyInGetChain | src/main/java/com/oracle/ateam/genai/langchain4java/GenAILangChainService.java:156-158 | "LLM" is dispatched by getChain but rejected by getChains |
| Service.QuietHttpFailureThrows | src/main/java/com/oracle/ateam/genai/langchain4java/GenAILangChainService.java:164-170 | an HTTP chain that failed quietly makes the substitution throw NullPointerException |
| Service.RunChainsMerges | src/main/java/com/oracle/ateam/genai/langchain4java/GenAILangChainService.java:154-171 | a successful loop's prompt is the ordered merge of the chains' results under their output variables |
| Service.TopLevelPropertiesUnused | src/main/java/com/oracle/ateam/genai/langchain4java/GenAILangChainService.java:172-175 | the top-level properties never matter; with no chains the final call gets the prompt and an empty map |

## Left out

- LlmChain.Predict: the model call is a total function, so a failing model call is not propagated through the chains. The generation base class swallows a service failure and then throws a NullPointerException in `createLLMResult` (`Generation.GenAICohereGenerationBase.FailedServiceThrows`). The real chains would pass that exception on from `invokeLLMChain`, from the `predict` calls of `OracleDatabaseChain.innerCall`, and from the final `invokeLLM` of `getChains`; the model does not. `Service.TopLevelPropertiesUnused`'s second clause, that no chains give `Ok` of the model's answer, depends on this.
- `GenAILangChainService.getLLM` builds the OCI client from the model parameters. It is modelled as a parameter that returns a model or fails. `getCompletion` is left out because it only calls `getLLM` and then the model on the prompt.
- The `Double` model parameters (temperature, frequency and presence penalties, topP) are left out because floating point is not modelled. Every other `ModelParameters` field is kept.
- LangChain4j's own code is not part of this model:
  - `Chain.run`/`call`, including their input validation and `prepOutputs`, are modelled as a call with the first input key and a read of the first output key;
  - `PromptTemplate` rendering and `CommaSeparatedListOutputParser` are folded into the model parameter, apart from the list the decider returns;
  - `LLMChain` and `API_RESPONSE_PROMPT` are referred to by name only.
- `OracleDatabase.close` and JDBC resource handling are not modelled, because closing has no observable effect in the model.
- `OracleDatabase`: the `LIKE` patterns passed to `getTables`/`getColumns` are taken as exact names, and a `SQLException` thrown by the metadata calls is not modelled; only `execute` can fail.
- Java `toLowerCase` is modelled for ASCII letters only. It is exact for the chain-type tags and for table names made of ASCII characters.
- Null prompts, null API URLs, null database credentials and null property values inside a property list are not modelled. Null lists, null maps, a null chain type, a null HTTP request and null tokens are modelled.
- The iteration order of the `HashMap` built by `invokeOracelDatabaseChain` is modelled as the order of first insertion. Java leaves that order unspecified.
- `String.getBytes()` in the Basic-auth header is modelled as UTF-8, assuming the platform charset.
- `HttpRequestChain.innerCall` returns the answer untrimmed (HttpRequestChain.java:122-124), and the model does the same.
- The private constructor of the HTTP `Prompt` class has no behaviour to model.
- Logging is out of scope, because it does not change any result.
- `Service.UnknownTagRunsNothing`, `Service.HttpChainNeverThrows` and `Service.TopLevelPropertiesUnused` restate what follows directly from the dispatch functions. They record, in order: the switch without a default (GenAILangChainService.java:91-102), the `catch (Exception)` of `invokeHttpRequestChain` (GenAILangChainService.java:256-258), and the null properties of the final `invokeLLM` (GenAILangChainService.java:172-175).
