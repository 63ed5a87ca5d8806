# A verified model of the JIRA customer-support agent

The system is a command-line agent that works through JIRA support tickets.
For each ticket given on the command line it:

1. fetches the issue and assembles its conversation (the description, the comments and the relevant changelog entries, in time order);
2. asks the DeepSeek chat API for a structured `IssueAnalysis` of it;
3. runs the Claude coding agent's command line on an investigation prompt, keeps its transcript and reads back the pull-request links it created;
4. turns a long transcript into a customer reply through a language model, with a deterministic fallback message;
5. posts the reply as a JIRA comment, adds labels and moves the ticket to a new status.

Around this pipeline sit:

- the configuration loader, with `${NAME}` substitution and validation;
- two collectors: a log search over SSH servers and a codebase explorer;
- the support engineers' query commands: transactions, cash transfers, users, service logs and the Alpaca ACH relationships;
- an audit table of processed tickets;
- a helper that stores fetched data under a per-ticket directory.

This project models that logic in Dafny, one module per source file:

| module | source file |
|---|---|
| `Pipeline` | `main.py` |
| `TicketProcessor` | `src/core/ticket_processor.py` |
| `DeepSeekClient` | `src/integrations/deepseek_client.py` |
| `ClaudeExecutor` | `src/integrations/claude_executor.py` |
| `ClaudeLogProcessor` | `src/integrations/claude_log_processor.py` |
| `TicketTracker` | `src/database/ticket_tracker.py` |
| `Config` | `src/core/config.py` |
| `LogReader` | `src/collectors/log_reader.py` |
| `CodeExplorer` | `src/collectors/code_explorer.py` |
| `FileDataStorage` | `src/utils/file_data_storage.py` |
| `Transactions` | `cli/commands/transactions.py` |
| `CashTransfers` | `cli/commands/cashtransfers.py` |
| `UserCommand` | `cli/commands/user.py` |
| `LogsCommand` | `cli/commands/logs.py` |
| `AlpacaAch` | `cli/commands/alpaca_ach_relationships.py` |

The commands share these modules:

- `SqlQuery`: the `$n`-numbered parametrised query;
- `TableFormat`: the fixed-width tables;
- `RelativeTime`: the `24h`/`7d` period grammar.

Shared helpers stand in for Python's own semantics:

- `Text`: `str` operations;
- `Sequences`: append-if-absent and de-duplication;
- `Sorting`: a stable `list.sort(key=...)`;
- `Dicts`: insertion-ordered `dict`;
- `Values`: decoded JSON/YAML;
- `Wrappers`: `Option` and `Result`, the stand-ins for `None` and raised exceptions.

Code that changes state step by step is modelled as methods with loops and invariants, proved against specification functions:

- the query builders, the table formatters and the pipeline stages;
- the conversation assembly and the label loop;
- the per-term and per-server result collection.

The audit table is a class over an in-memory sequence of rows whose only writer appends.

The outside world enters as inputs:

- JIRA, HTTP, SQLite, SSH and the subprocess appear as the values they return or the failures they raise;
- the clock, timestamp rendering, `json.loads`/`dumps` and `str()` of foreign objects are parameters.

The four pull-request link patterns are not an input: they are written out as hand-made matchers.

## Model

| member | source | states |
|---|---|---|
| Transactions.FormatTime | cli/commands/transactions.py:320-325 | the result starts with the argument and differs from it exactly when the argument is ten characters long and holds a dash |
| Transactions.FormatTimeIdempotent | cli/commands/transactions.py:320-325 | formatting an already formatted time changes nothing |
| Transactions.TimeFilters | cli/commands/transactions.py:257-273 | the time section fails exactly when there is no `--since` and `--last` is not a relative period; every time condition is on `created_at`; the upper bound is there exactly when both `--since` and `--until` are given |
| Transactions.AttributeFilters | cli/commands/transactions.py:275-302 | keeps the earlier conditions and appends at most five, none of them on `created_at` or `user_id` |
| Transactions.AddTimeConditions | cli/commands/transactions.py:257-273 | the time section leaves the condition list, the parameter list and the counter as numbering the time filters after the earlier ones gives, or the parse error |
| Transactions.AddAttributeConditions | cli/commands/transactions.py:275-302 | likewise for the type, status, symbol and amount sections |
| Transactions.CollectFilters | cli/commands/transactions.py:248-302 | the lists and the counter `_build_query` ends with are the numbered conditions and parameters of the filters in their order, or the first error |
| Transactions.BuildQuery | cli/commands/transactions.py:238-317 | the query and parameters are those of the specification function `TransactionsQuery` |
| Transactions.UserIdFirst | cli/commands/transactions.py:252-255 | a user id that `int()` rejects is the error; otherwise the first condition is `user_id = $1` with `int(user_id)` as its parameter |
| Transactions.TimeArgumentsPrecedence | cli/commands/transactions.py:258-273 | with `--since`, `--last` is ignored; without it, `--until` is ignored |
| Transactions.UpperBoundOnlyWithUntil | cli/commands/transactions.py:264-268 | the `created_at <=` condition appears exactly when `--since` and `--until` are both given |
| Transactions.SymbolUpperCased | cli/commands/transactions.py:288-291 | the symbol filter carries the upper-cased symbol |
| Transactions.QueryShape | cli/commands/transactions.py:246-317 | the query starts with `SELECT `, ends with ` LIMIT n`, and its placeholders are `$1 .. $n` for its n parameters in order |
| Transactions.Present | cli/commands/transactions.py:500-503 | holds exactly the priority fields the results have, without repeats |
| Transactions.ChooseColumns | cli/commands/transactions.py:496-512 | the two loops and the cut give the specification function `DisplayFields` |
| Transactions.ColumnOrder | cli/commands/transactions.py:496-512 | the shown columns are distinct, come from the results, number at most eight, and are the present priority fields in their fixed order followed by the other fields in theirs, cut to eight |
| Transactions.FormatTable | cli/commands/transactions.py:488-544 | empty results give `""`; otherwise the table of the chosen columns with widths capped at 30 and cells cut |
| Transactions.TableAligned | cli/commands/transactions.py:515-543 | every result line is as long as the separator; the header is too exactly when no shown column name is longer than 30 |
| CashTransfers.OptionalFilters | cli/commands/cashtransfers.py:216-235 | keeps the earlier conditions and appends at most four |
| CashTransfers.AddOptionalConditions | cli/commands/cashtransfers.py:216-235 | the append section leaves the lists and the counter as numbering the optional filters after the earlier ones gives |
| CashTransfers.BuildQuery | cli/commands/cashtransfers.py:195-246 | the query and parameters are those of the specification function `CashTransfersQuery` |
| CashTransfers.UserIdFirst | cli/commands/cashtransfers.py:211-214 | the builder fails exactly when `int(user_id)` does, with its message; otherwise the first condition is `user_id = $1` with the integer |
| CashTransfers.AddIfRanked | cli/commands/cashtransfers.py:216-235 | each optional append keeps the conditions in their fixed order and never repeats one |
| CashTransfers.FiltersPresentIffGiven | cli/commands/cashtransfers.py:216-235 | each of status, type, origin and destination has its equality condition exactly when its argument is given |
| CashTransfers.FixedFilterOrder | cli/commands/cashtransfers.py:211-235 | every condition is an equality, and after `user_id` the optional ones come in the order status, type, origin, destination |
| CashTransfers.QueryShape | cli/commands/cashtransfers.py:203-246 | the query starts with `SELECT `, ends with ` ORDER BY created_at DESC LIMIT n`, and numbers its placeholders for its parameters |
| CashTransfers.FormatTable | cli/commands/cashtransfers.py:335-370 | empty results give `""`; otherwise the uncapped table of the first result's keys |
| CashTransfers.TableAligned | cli/commands/cashtransfers.py:343-368 | the table has 2 + n lines and every line, the header without its colour codes, is as long as the separator |
| UserCommand.BuildQuery | cli/commands/user.py:183-222 | the query and parameters are those of the specification function `UserQuery` |
| UserCommand.OneCondition | cli/commands/user.py:199-211 | fails exactly when there is no email and the user id is not an integer; otherwise at most one condition with `$1`, chosen email before user id before Alpaca id, and none when no argument is given |
| UserCommand.EmailPatternUnchanged | cli/commands/user.py:199-202 | an email gives `email_address ILIKE $1` with the pattern as its only parameter, unchanged |
| UserCommand.QueryShape | cli/commands/user.py:191-222 | the query starts with `SELECT ` and ends with ` ORDER BY id LIMIT n` |
| UserCommand.FormatTable | cli/commands/user.py:311-346 | empty results give `""`; otherwise the uncapped table of the first result's keys |
| UserCommand.TableAligned | cli/commands/user.py:319-344 | the table has 2 + n lines and every line, the header without its colour codes, is as long as the separator |
| TableFormat.CellWidth | cli/commands/user.py:322-325 | the longest cell of a column is at least every cell and equal to one of them |
| TableFormat.Layout | cli/commands/user.py:319-346 | the width loop and the line loop give the specification function `Table` |
| TableFormat.TableLineCount | cli/commands/user.py:327-346 | a table has a header, a separator and one line per result |
| TableFormat.WidthBounds | cli/commands/transactions.py:517-523 | uncapped, a column is at least as wide as its name and every cell and equal to one of them; capped, it is at most the cap and below it only when the uncapped width is |
| TableFormat.JoinLength | cli/commands/user.py:331-344 | the length of `sep.join(parts)` is the total length of the parts plus the separators |
| TableFormat.RowsAligned | cli/commands/user.py:335-344 | every result line is as long as the separator |
| TableFormat.HeaderAligned | cli/commands/transactions.py:515-534 | the header without colours is as long as the separator exactly when no column name exceeds the cap |
| SqlQuery.SelectHead | cli/commands/transactions.py:240-247 | the query head starts with `SELECT ` |
| SqlQuery.AddIf | cli/commands/transactions.py:276-279 | an optional filter is appended exactly when its argument is given, after the earlier ones |
| SqlQuery.AppendFilter | cli/commands/transactions.py:253-255 | one more filter is numbered after all earlier ones and its parameter appended last |
| SqlQuery.Append | cli/commands/transactions.py:253-255 | the append step on the builder's lists and counter keeps them equal to the numbering of the filters so far |
| SqlQuery.RenderedEndsWith | cli/commands/transactions.py:253 | a rendered condition ends with its placeholder |
| SqlQuery.PlaceholdersMatchParams | cli/commands/transactions.py:248-302 | the conditions carry `$1 .. $n` in order and there are as many parameters as conditions |
| SqlQuery.ParseIntRoundTrip | cli/commands/transactions.py:254 | `int(str(i)) == i` |
| SqlQuery.ParseIntNeedsDigit | cli/commands/transactions.py:254 | a string without a digit is rejected by `int()` |
| RelativeTime.UnitSeconds | cli/commands/transactions.py:340-347 | each unit is a positive whole number of minutes |
| RelativeTime.ParseRelativeTime | cli/commands/transactions.py:328-352 | succeeds exactly when the argument matches, giving the clock minus the period |
| RelativeTime.DigitsThenUnit | cli/commands/logs.py:214-232 | digits followed by a unit letter in either case are that many units |
| RelativeTime.RelativeRoundTrip | cli/commands/logs.py:212-235 | every count followed by a unit letter, lower or upper case, is accepted as that many units |
| RelativeTime.RelativeNeedsUnit | cli/commands/transactions.py:331-333 | a bare count is rejected |
| RelativeTime.RelativeTrailingNewline | cli/commands/transactions.py:331 | one trailing newline is accepted, as the `$` anchor allows |
| LogsCommand.FormatTime | cli/commands/logs.py:204-209 | the result starts with the argument, differs from it exactly when the argument matches `YYYY-MM-DD` (a trailing newline allowed, as `$` allows), and then is the argument plus ` 00:00:00` |
| LogsCommand.DateGetsMidnight | cli/commands/logs.py:207-208 | every four-two-two digit date gets midnight, and formatting it again changes nothing |
| LogsCommand.TimeArgs | cli/commands/logs.py:183-201 | fails exactly when there is no `--since` and `--last` is not a relative period, with the `ValueError` text; the start begins with `--since` when given; with neither argument the window is empty |
| LogsCommand.TimeArgsPrecedence | cli/commands/logs.py:188-199 | without `--since`, `--until` changes nothing; with it, `--last` changes nothing |
| LogsCommand.WindowEndsNow | cli/commands/logs.py:190-199 | a window given by `--since` alone or by `--last` ends at the clock; a `--last` of n units starts n units before it |
| LogsCommand.Escape | cli/commands/logs.py:162-163 | never shorter than the pattern, and every `"` or `$` in it has a backslash in front |
| LogsCommand.EscapedIsEscape | cli/commands/logs.py:163 | the two chained `replace` calls escape the pattern character by character |
| LogsCommand.UnescapeEscaped | cli/commands/logs.py:161-164 | for a pattern without a backslash or a backquote, bash's reading of the double-quoted escaped pattern hands grep exactly the user's pattern |
| LogsCommand.DoubleQuoted | cli/commands/logs.py:164 | what bash passes on from double quotes is never longer than the quoted text |
| LogsCommand.EscapedUnchanged | cli/commands/logs.py:163 | a pattern without `"` and `$` is sent unchanged |
| LogsCommand.BackslashesHalved | cli/commands/logs.py:161-164 | the pattern `a\\b` reaches grep as `a\b` |
| LogsCommand.BackquoteSubstitutes | cli/commands/logs.py:161-164 | a backquoted command in the pattern is substituted by the remote shell instead of reaching grep |
| LogsCommand.TrailingBackslashOpensQuote | cli/commands/logs.py:161-164 | a pattern ending in a backslash escapes the closing quote |
| LogsCommand.BuildJournalctl | cli/commands/logs.py:142-153 | the list built option by option is the specification list `JournalctlParts` |
| LogsCommand.BuildRemote | cli/commands/logs.py:156-171 | the filters list and the joined remote command are the specification `Remote` |
| LogsCommand.BuildSshCommand | cli/commands/logs.py:136-180 | the command is the specification `SshCommand`, or the time-parsing error |
| LogsCommand.JournalLineJoins | cli/commands/logs.py:142-153 | joined, the parts are `sudo journalctl -u <service>`, then the quoted `--since` and `--until` when set, then `-f` or `-n <tail>` |
| LogsCommand.FiltersJoin | cli/commands/logs.py:156-169 | the filters follow in order, each after ` \| `: the user filter, then the escaped pattern |
| LogsCommand.RemoteJoins | cli/commands/logs.py:166-171 | the remote command is the journal command followed by its filters |
| LogsCommand.CommandLine | cli/commands/logs.py:173-178 | the command is `ssh <server> '`, the journal command, the filters, the closing quote and the redirection, and starts with `ssh <server> 'sudo journalctl -u <service>` |
| LogsCommand.FollowIgnoresTailAndOutput | cli/commands/logs.py:150-153 | with `--follow`, neither `--tail` nor `--output` changes the command, which ends with the closing quote |
| LogsCommand.RedirectOnlyWhenSaving | cli/commands/logs.py:177-178 | the command ends with ` > <file>` exactly when a file is given and the log is not followed, and with the closing quote otherwise |
| LogReader.FirstWordAt | src/collectors/log_reader.py:215 | the alternative found matches there as a whole word ignoring case, and when none is found no alternative matches there |
| LogReader.LevelFrom | src/collectors/log_reader.py:234-237 | the level read from a line is always one of the seven level names |
| LogReader.LevelFromFirst | src/collectors/log_reader.py:234-237 | the level is the keyword at the leftmost position that has one, or `INFO` when no position has one |
| LogReader.LevelIgnoresCase | src/collectors/log_reader.py:235 | the level does not depend on the case of the line |
| LogReader.LineEntry | src/collectors/log_reader.py:174-197 | an entry carries the server's name, a file name without a colon, a known level and the stripped content as its message |
| LogReader.ParseGrepLine | src/collectors/log_reader.py:178-197 | the colon-splitting of one line gives the specification `GrepEntry` |
| LogReader.ParsedEntries | src/collectors/log_reader.py:170-203 | at most one entry per line, each from this server with a colon-free file name |
| LogReader.ParseLogOutput | src/collectors/log_reader.py:170-203 | the loop over the stripped output's lines gives the entries of the lines that parse, in order |
| LogReader.GrepLineParses | src/collectors/log_reader.py:179-194 | a line `<file>:<number>:<content>` as grep writes it gives back the file and the whole content, with the content's level, its time and whether that time carries a UTC offset |
| LogReader.ColonsAgreeWithSplit | src/collectors/log_reader.py:180-183 | cutting at the first two colons agrees with `line.split(':', 3)`: there is a file and content exactly when there are three parts, and the content is the later parts joined by `:` |
| LogReader.LineEntryAgreesWithSplit | src/collectors/log_reader.py:174-183 | a line gives an entry exactly when it is not blank and splits into at least three parts |
| LogReader.TotalPut | src/collectors/log_reader.py:253 | storing a count changes the total by the difference |
| LogReader.LevelCountsCorrect | src/collectors/log_reader.py:250-253 | each level seen has one entry in the counts, holding the number of its entries, and the counts add up to the number of entries |
| LogReader.MinStamp | src/collectors/log_reader.py:256-257 | the earliest time is one of the entries' times and no later than any |
| LogReader.MaxStamp | src/collectors/log_reader.py:256-257 | the latest time is one of the entries' times and no earlier than any |
| LogReader.GenerateSearchSummary | src/collectors/log_reader.py:244-265 | the counting loop and the joined parts give the specification `SearchSummary` |
| LogReader.SummaryEmptyIff | src/collectors/log_reader.py:247-248 | the "no entries" summary is given exactly when nothing was found |
| LogReader.DateFilterAlternatives | src/collectors/log_reader.py:161-168 | the filter is `grep -E "(<start>\|<end>)" \|\| true` and its alternatives are exactly the two dates |
| LogReader.SearchServer | src/collectors/log_reader.py:98-120 | the loop over the log paths, the sort and the summary give the specification `ServerResult`, the sort's `TypeError` included |
| LogReader.ServerResultSound | src/collectors/log_reader.py:102-120 | the search raises `can't compare offset-naive and offset-aware datetimes` exactly when the entries found mix times with and without an offset; otherwise the result counts its entries, holds exactly the entries found on all paths, sorted by time with ties in the order found, keeps the per-path errors, and has the empty summary exactly when nothing was found |
| LogReader.MixedServerIsError | src/collectors/log_reader.py:71-79 | a server whose entries mix naive and aware times is reported with no entries, that `TypeError` as its one error and `Error: ` before it as its summary |
| LogReader.SearchLogs | src/collectors/log_reader.py:66-83 | the loop over the servers' outcomes gives the specification `SearchResults` |
| LogReader.ResultKeys | src/collectors/log_reader.py:66-83 | every configured host has exactly one result and there are no others |
| LogReader.LastSearchWins | src/collectors/log_reader.py:68-81 | a host's result is the outcome of its last search |
| LogReader.FailedServerResult | src/collectors/log_reader.py:71-79 | a server that raised has no entries, the exception as its one error, and a summary starting with `Error: ` |
| CodeExplorer.BuildAnalysisPrompt | src/collectors/code_explorer.py:95-126 | builds the prompt step by step: the fixed head naming the term twice, the files line only when files are given, then the closing request |
| CodeExplorer.FilesNamedIff | src/collectors/code_explorer.py:119-120 | the prompt is just the head and the closing request exactly when no files are given |
| CodeExplorer.PromptNamesTerm | src/collectors/code_explorer.py:98 | the prompt contains the search term |
| CodeExplorer.PromptNamesFiles | src/collectors/code_explorer.py:119-120 | the prompt contains every file to check |
| CodeExplorer.JsonBounds | src/collectors/code_explorer.py:133-136 | there are bounds exactly when some `{` comes before some `}`; they run from the first `{` to just after the last `}` |
| CodeExplorer.JsonCandidate | src/collectors/code_explorer.py:133-137 | the text handed to the decoder starts with `{` and ends with `}`, and there is one exactly when a `{` precedes a `}` |
| CodeExplorer.ShortSummary | src/collectors/code_explorer.py:167 | a raw reply of at most 200 characters gives the stripped reply; a longer one gives the first 200 characters of the stripped reply (all of it when shorter) followed by `...` |
| CodeExplorer.ParseClaudeResponse | src/collectors/code_explorer.py:128-173 | every result it returns carries the search term it was asked about |
| CodeExplorer.NoJsonFallback | src/collectors/code_explorer.py:149-159 | a reply without a `{` before a `}` becomes the stripped reply as summary and insights, empty lists, and confidence 0.7, whatever the decoder would say |
| CodeExplorer.BadJsonFallback | src/collectors/code_explorer.py:161-173 | a candidate that does not decode gives the stripped reply as insights, empty lists, confidence 0.6, and `ShortSummary` of the reply as the summary: shortened to 200 characters and `...` only when the raw reply exceeds 200 characters |
| CodeExplorer.JsonFieldsRead | src/collectors/code_explorer.py:138-148 | a decoded dictionary gives each key's value, and `""`, `[]` or 0.5 for each key it lacks |
| CodeExplorer.NonObjectRaises | src/collectors/code_explorer.py:138-148 | once the candidate decodes, parsing raises exactly when the decoded value is not a dictionary |
| CodeExplorer.CandidateOfWrapped | src/collectors/code_explorer.py:133-137 | a JSON text surrounded by brace-free prose is handed to the decoder exactly |
| CodeExplorer.EllipsisWithoutCut | src/collectors/code_explorer.py:167 | a 201-character reply whose stripped form has 199 characters is not shortened yet gains `...` |
| CodeExplorer.AnalyzeWithClaude | src/collectors/code_explorer.py:65-93 | an analysis that succeeds is about the term asked for; a non-zero exit or a failure to start is an error |
| CodeExplorer.SearchCodebase | src/collectors/code_explorer.py:40-63 | the loop over the terms builds the same dictionary as storing each term's result, or its failure, in order |
| CodeExplorer.ResultsKeyedByTerm | src/collectors/code_explorer.py:47-61 | the result's keys are the search terms, each once, in order of first appearance |
| CodeExplorer.TermHoldsResult | src/collectors/code_explorer.py:47-61 | every search term maps to the result computed for it |
| CodeExplorer.ResultPerTerm | src/collectors/code_explorer.py:47-61 | every term has an entry about that term: its analysis when it succeeded, otherwise a record with confidence 0.0 and summary `Analysis failed: ` followed by the error |
| Config.Placeholder | src/core/config.py:140-141 | a string is a placeholder exactly when it starts with `${` and ends with `}`, and the name is what lies between |
| Config.SubstituteString | src/core/config.py:138-146 | a non-placeholder string is kept; a placeholder becomes its variable's value, or the error naming the unset variable |
| Config.Substitute | src/core/config.py:131-148 | values other than strings, lists and dictionaries are kept; lists keep their length and dictionaries their keys |
| Config.SubstituteItems | src/core/config.py:136-137 | a list substitutes exactly when every item does, item by item; otherwise the error is one of its items' errors |
| Config.SubstituteFields | src/core/config.py:134-135 | a substituted dictionary keeps its keys in order |
| Config.FieldsSubstituted | src/core/config.py:134-135 | a dictionary substitutes exactly when every value does, value by value; otherwise the error is that of the first value that fails |
| Config.NoPlaceholdersKept | src/core/config.py:131-148 | a document holding no placeholder comes back unchanged |
| Config.SubstitutedHasNone | src/core/config.py:131-148 | when no variable's value is itself a placeholder, the substituted document holds no placeholder |
| Config.SubstituteIdempotent | src/core/config.py:131-148 | under that condition, substituting twice gives what substituting once gives |
| Config.PlaceholderReplaced | src/core/config.py:140-145 | `${NAME}` becomes the value of `NAME`, or fails with `Environment variable NAME is not set` |
| Config.ApplyUser | src/core/config.py:96-105 | for any user but `yassa` (in any case) the document is kept; for `yassa` without a non-empty token variable the load fails with the missing-token message |
| Config.OverrideSetsToken | src/core/config.py:97-102 | for `yassa` with a token, the `jira` section holds the token and `yassa@surmount.ai`, keeps its other keys, and the rest of the document is kept |
| Config.OverrideIgnoresCase | src/core/config.py:97 | the override depends on the user name only up to case |
| Config.Prepare | src/core/config.py:93-105 | a failing substitution is the load's error; for a user other than `yassa` the prepared document is the substituted one |
| Config.Validate | src/core/config.py:150-184 | the checks run in order give exactly the error list the reference definition lists, and the result is success or the formatted failure |
| Config.CheckLeading | src/core/config.py:154-166 | the JIRA, DeepSeek and command-line checks give the leading errors in order |
| Config.CheckServers | src/core/config.py:168-173 | the loop over the servers appends exactly each server's host and key-file errors in order |
| Config.CheckTrailing | src/core/config.py:175-181 | the database and codebase checks append their errors in order |
| Config.NoServerErrorsIff | src/core/config.py:168-173 | the servers give no error exactly when each has a host and either no key path or one that exists |
| Config.ValidateOkIff | src/core/config.py:150-184 | validation succeeds exactly when every required value is present and every path that is checked exists |
| Config.FailureLines | src/core/config.py:183-184 | the raised message is the heading followed by one line `  - <error>` per error, in order |
| Config.Bulleted | src/core/config.py:184 | one line `  - <error>` for each error, in order |
| Config.ServerErrorsStartS | src/core/config.py:170-173 | every server error begins with `S` |
| Config.LeadingRequired | src/core/config.py:155-162 | each required-field error before the servers appears exactly when its field is empty |
| Config.TrailingRequired | src/core/config.py:176-177 | the connection-string error appears after the servers exactly when the string is empty |
| Config.RequiredFieldErrors | src/core/config.py:155-177 | each of the four required-field errors is reported exactly when its field is empty |
| AlpacaAch.FirstNonDict | cli/commands/alpaca_ach_relationships.py:223 | finds nothing exactly when every relationship is a dictionary; otherwise the index of a relationship that is not one |
| AlpacaAch.FormatTable | cli/commands/alpaca_ach_relationships.py:195-245 | the loop over the relationships gives exactly the text, or the `AttributeError`, that the table definition gives |
| AlpacaAch.CellsLookup | cli/commands/alpaca_ach_relationships.py:240 | the cell of a field in a relationship's row is `str` of its value, or empty when the relationship lacks the field |
| AlpacaAch.InputNormalised | cli/commands/alpaca_ach_relationships.py:197-214 | a falsy reply gives `""`, a single dictionary is a one-element list, any other non-list is shown with `str`, so a string reply prints as itself, a list whose first element is not a dictionary is dumped as JSON, and `No ACH relationships found` never comes out of the table code itself |
| AlpacaAch.RaisesIff | cli/commands/alpaca_ach_relationships.py:216-224 | formatting raises exactly when the first relationship is a dictionary with a key and some relationship is not a dictionary; the error names the type of the first such relationship |
| AlpacaAch.ColumnWidths | cli/commands/alpaca_ach_relationships.py:218-224 | each column is at least as wide as its name and every cell in it, exactly as wide as one of them, and a row shows the value padded to that width |
| AlpacaAch.TableAligned | cli/commands/alpaca_ach_relationships.py:229-245 | the table is the bold header, the separator and one line per relationship; the header without its colour codes and every row are as long as the separator |
| AlpacaAch.Masked | cli/commands/alpaca_ach_relationships.py:130 | masking keeps the header names in order |
| AlpacaAch.MaskHidesCredentials | cli/commands/alpaca_ach_relationships.py:117-130 | the printed headers are `accept` and `authorization: Basic ***` whatever the credentials, while the headers sent carry `Basic` and the encoded credentials |
| AlpacaAch.ErrorTextChoice | cli/commands/alpaca_ach_relationships.py:152-157 | a JSON dictionary reply gives its `message` or `Unknown error`; any other reply gives its text, or `HTTP <status>` when the text is empty; the message is empty only when the server's `message` is |
| AlpacaAch.MissingCredentialsNoRequest | cli/commands/alpaca_ach_relationships.py:110-114 | without a user name or a password the command fails with the missing-credentials message and sends nothing |
| AlpacaAch.OneRequest | cli/commands/alpaca_ach_relationships.py:117-135 | with both credentials the outcome depends on the network only through the one request to the account's URL with the encoded credentials |
| AlpacaAch.FailuresPrefixed | cli/commands/alpaca_ach_relationships.py:152-164 | every failure is reported after `Request failed: ` or `Failed to execute request: `, and a status other than 200 always fails with that status and the chosen error text |
| ClaudeExecutor.CommandArgs | src/integrations/claude_executor.py:180-186 | the command is the configured path followed by the four fixed flags: skip permissions, print, and model `claude-4` |
| ClaudeExecutor.RunCommand | src/integrations/claude_executor.py:175-225 | output under 50 characters once stripped fails with exit -1 whatever the exit code; otherwise the exit code is reported, with `Non-zero exit code` exactly when it is not 0; an exception gives -1 and its message, unless writing the error log raises too; a non-zero code always carries a message |
| ClaudeExecutor.RunCommandSucceeds | src/integrations/claude_executor.py:207-214 | the command reports 0 exactly when the process exited with 0 and printed at least 50 characters beyond surrounding whitespace |
| ClaudeExecutor.LogContents | src/integrations/claude_executor.py:203-204 | the log holds the output, or starts with the `ERROR:` line naming the exception |
| ClaudeExecutor.PrUrlsCorrect | src/integrations/claude_executor.py:238-250 | the extracted links are distinct, are exactly the matches of the four patterns, and each occurs in the transcript and looks like a link |
| ClaudeExecutor.FindAllSound | src/integrations/claude_executor.py:245-247 | every match of a pattern occurs in the transcript and looks like a link |
| ClaudeExecutor.AllMatchesSound | src/integrations/claude_executor.py:245-247 | every match of any of the patterns occurs in the transcript and looks like a link |
| ClaudeExecutor.FindAllFromFirst | src/integrations/claude_executor.py:245-247 | `findall` reports a match when no match starts between the scan's position and it |
| ClaudeExecutor.AllMatchesGrow | src/integrations/claude_executor.py:245-247 | the matches of the earlier patterns stay among those of all the patterns |
| ClaudeExecutor.MatchAt | src/integrations/claude_executor.py:239-242 | a match found at a position ends after it and is a slice of the transcript that looks like a link |
| ClaudeExecutor.GithubPullAt | src/integrations/claude_executor.py:239 | a GitHub pull-request match is the slice from the position to the match's end |
| ClaudeExecutor.LabelledAt | src/integrations/claude_executor.py:240-242 | a labelled match is the `https://` link right after the label, up to the next whitespace |
| ClaudeExecutor.ExtractPrUrls | src/integrations/claude_executor.py:227-257 | the loop over the patterns collects exactly the matches, de-duplicated; an unreadable log gives no links |
| ClaudeExecutor.ReadInstructions | src/integrations/claude_executor.py:259-268 | the instructions file when it can be read, else the built-in instructions |
| ClaudeExecutor.CustomerSection | src/integrations/claude_executor.py:100-107 | the customer section is empty exactly when email, Alpaca id and bank code are all empty; each present one appears on its own labelled line, in that order |
| ClaudeExecutor.CustomerBlock | src/integrations/claude_executor.py:138 | the fallback text appears exactly when the customer section is empty |
| ClaudeExecutor.RequirementHasMarker | src/integrations/claude_executor.py:159-168 | the closing requirement names the `=== FINAL ANALYSIS ===` marker |
| ClaudeExecutor.PromptContents | src/integrations/claude_executor.py:118-171 | the prompt starts with the instructions and contains the customer block, the whole conversation and the final-analysis marker |
| ClaudeExecutor.FormatPromptConversation | src/integrations/claude_executor.py:93-97 | the loop produces one `[time] author (type):` block per entry, in order |
| ClaudeExecutor.FormatCustomerBlock | src/integrations/claude_executor.py:99-107 | the accumulated customer section, or the fallback text when it is empty |
| ClaudeExecutor.BuildClaudePrompt | src/integrations/claude_executor.py:87-173 | the prompt is built exactly when none of the joined lists is missing, and is then the template filled from the ticket and the analysis |
| ClaudeExecutor.WellFormedBuildsPrompt | src/integrations/claude_executor.py:146-153 | an analysis as the analyser produces it never blocks the prompt |
| ClaudeExecutor.RunAndReport | src/integrations/claude_executor.py:58-85 | when `_run_claude_command` returns, the exit code is its code and the error message its message exactly when the code is not 0, and the links are those of the whole log file, which after a caught exception is the error line and the prompt; success exactly when exit code 0, which holds exactly when the process exited 0 with meaningful output; an escaping exception gives a failed result with -1 and no links |
| ClaudeExecutor.ExecuteAnalysis | src/integrations/claude_executor.py:37-85 | fails only when the prompt cannot be built; otherwise the result records the ticket's `claude_logs/claude_execution.log` path, the code and message `_run_claude_command` returned, and the links of the log file written for the built prompt |
| ClaudeExecutor.FailedRunReportsPromptLinks | src/integrations/claude_executor.py:216-257 | a command that raises is caught with exit code -1, and a pull-request link quoted in the prompt, echoed into the error log, comes back among the links found |
| ClaudeLogProcessor.ReadClaudeLogs | src/integrations/claude_log_processor.py:102-117 | a transcript of at most 50000 characters is kept; a longer one keeps its first 50000 followed by the truncation notice; an unreadable one gives the error line naming the path |
| ClaudeLogProcessor.WithAiPrefix | src/integrations/claude_log_processor.py:196-198 | the message then starts with `AI Generated Message:`; the opening paragraph is added only when the message lacks it |
| ClaudeLogProcessor.NumberedListPrefix | src/integrations/claude_log_processor.py:203-204 | the numbered list of the first links is a prefix of the list of all of them |
| ClaudeLogProcessor.NumberedListLine | src/integrations/claude_log_processor.py:203-204 | link number i appears as the line `i. <link>` |
| ClaudeLogProcessor.FinalMessage | src/integrations/claude_log_processor.py:193-214 | the final message starts with the marked base message; without links it is just that, with links it ends with the pull-request heading and the numbered list |
| ClaudeLogProcessor.FinalMessageListsLinks | src/integrations/claude_log_processor.py:200-205 | the final message carries every link on its own numbered line |
| ClaudeLogProcessor.NumberPullRequests | src/integrations/claude_log_processor.py:202-204 | the loop numbers the links from 1, one line each, in order |
| ClaudeLogProcessor.FormatFinalMessage | src/integrations/claude_log_processor.py:193-214 | builds exactly the final message, whatever the transcript holds |
| ClaudeLogProcessor.ShownErrors | src/integrations/claude_log_processor.py:231 | at most the first two error messages, and at least one when there are any |
| ClaudeLogProcessor.Optional | src/integrations/claude_log_processor.py:229-243 | an optional paragraph is present exactly when its condition holds, and at most once |
| ClaudeLogProcessor.FallbackParagraphs | src/integrations/claude_log_processor.py:216-263 | the fallback cannot be built only when the investigation succeeded and the analysis has no category, as `None.lower()` raises |
| ClaudeLogProcessor.AnalysisKinds | src/integrations/claude_log_processor.py:223-250 | the analysis part never holds the links, the follow-up or the apology; its error paragraph shows one or two errors of a non-empty list; its priority paragraph appears only for a high or critical severity |
| ClaudeLogProcessor.FallbackShape | src/integrations/claude_log_processor.py:219-263 | a failed investigation gives the apology alone; a successful one ends with the follow-up sentence, right after the link list when there are links, lists the links nowhere else, and never apologises |
| ClaudeLogProcessor.FallbackSections | src/integrations/claude_log_processor.py:229-243 | the priority paragraph appears exactly for a high or critical severity, and the error paragraph exactly when errors are listed, naming at most the first two |
| ClaudeLogProcessor.FallbackText | src/integrations/claude_log_processor.py:216-263 | the fallback text opens with the marker paragraph and fails exactly when its paragraphs cannot be built |
| ClaudeLogProcessor.FallbackEnding | src/integrations/claude_log_processor.py:261-263 | after a success the text ends with the follow-up sentence; after a failure it is the marker and the apology |
| ClaudeLogProcessor.GenerateFallbackResponse | src/integrations/claude_log_processor.py:216-263 | the message built piece by piece is exactly the fallback text |
| ClaudeLogProcessor.AppendClosing | src/integrations/claude_log_processor.py:254-261 | appends the numbered links when there are some, then the follow-up sentence |
| ClaudeLogProcessor.AppendAnalysis | src/integrations/claude_log_processor.py:223-250 | appends the paragraphs drawn from the analysis, in order |
| ClaudeLogProcessor.AppendFindings | src/integrations/claude_log_processor.py:229-235 | appends the error and affected-area paragraphs when they apply |
| ClaudeLogProcessor.AppendAccount | src/integrations/claude_log_processor.py:237-243 | appends the account and priority paragraphs when they apply |
| ClaudeLogProcessor.FallbackResponse | src/integrations/claude_log_processor.py:80-100 | after a failed investigation there is no response, only the error; after a success the fallback message, marked investigated with medium confidence, the fixed next step, the failure in the technical summary and the investigation's links |
| ClaudeLogProcessor.GenerateResponseAsWritten | src/integrations/claude_log_processor.py:55-100 | as written every reply ends in the fallback: a parsed reply raises the attribute error |
| ClaudeLogProcessor.GenerateResponse | src/integrations/claude_log_processor.py:55-100 | a complete reply becomes the response with its message marked and followed by the links and the optional keys defaulted; a missing key or a failed call takes the fallback; every response starts with the marker and carries the investigation's links |
| ClaudeLogProcessor.AsWrittenDiscardsReply | src/integrations/claude_log_processor.py:65-78 | as written, a complete reply reporting a fix still yields `investigated`, where reading its keys yields `fixed` |
| ClaudeLogProcessor.FallbackTextListsLinks | src/integrations/claude_log_processor.py:255-261 | a fallback with links ends with their numbered list and the follow-up sentence |
| ClaudeLogProcessor.FallbackListsLinksTwice | src/integrations/claude_log_processor.py:87-88 | in the fallback response the numbered links appear twice: in the fallback text and again from the final formatting |
| DeepSeekClient.MapCustomer | src/integrations/deepseek_client.py:155-161 | each customer key the reply gives is kept; a missing one becomes `""`, `[]` or confidence `low` |
| DeepSeekClient.MapTimeframe | src/integrations/deepseek_client.py:162-168 | each timeframe key the reply gives is kept; a missing one becomes `""`, `[]` or confidence `low` |
| DeepSeekClient.MapAnalysis | src/integrations/deepseek_client.py:141-170 | the analysis carries the ticket's own id whatever the reply says; a missing section gives the defaults; summary, category, severity and score are copied as given, `None` when missing |
| DeepSeekClient.MapAdmitted | src/integrations/deepseek_client.py:37-74 | a reply that follows the declared schema maps to an analysis whose category, severity and confidence levels are in their enumerations, whose lists are present and whose score lies in [0, 1] |
| DeepSeekClient.CallApi | src/integrations/deepseek_client.py:206-229 | the content is returned exactly when the reply is 200, is JSON, has a non-empty `choices` list and non-empty first content; any other status fails with the status and the body |
| DeepSeekClient.AnalyzeTicket | src/integrations/deepseek_client.py:134-175 | a failed call or a failed parse is raised unchanged; otherwise the analysis is the mapped reply, for the ticket asked about |
| DeepSeekClient.ConversationLines | src/integrations/deepseek_client.py:235-240 | three lines per entry in order: time, upper-cased type and author; the content; an empty line |
| DeepSeekClient.FormatConversation | src/integrations/deepseek_client.py:231-242 | the loop's lines joined by newlines are exactly those three lines per entry |
| FileDataStorage.DataCategory | src/utils/file_data_storage.py:19-27 | ticket data, issue analyses and execution results each have their own category, and exactly the other classes go to `no_category` |
| FileDataStorage.KeepSegments | src/utils/file_data_storage.py:30 | the path keeps no empty and no `.` component, and never gains components |
| FileDataStorage.LogDataToFile | src/utils/file_data_storage.py:9-50 | a path is returned exactly when the write succeeds: `data.txt` under the explicit category when one is given and not empty, otherwise under the detected one; the file then holds the JSON rendering of the value when there is one, else `str` of the value |
| FileDataStorage.KeepPlain | src/utils/file_data_storage.py:30 | plain components are all kept, in order |
| FileDataStorage.PlainDataPath | src/utils/file_data_storage.py:29-30 | for single-component identifier, category and file name the path is `fetched_data/tickets/<identifier>/<category>/<file>` as written |
| FileDataStorage.PlainDataFilePath | src/utils/file_data_storage.py:44 | the saved file of such an identifier and category is `fetched_data/tickets/<identifier>/<category>/data.txt` |
| FileDataStorage.OverrideIgnoresKind | src/utils/file_data_storage.py:35-36 | with an explicit category the kind of value changes neither where it is saved nor what is written |
| Pipeline.ShortTranscriptArg | main.py:73-74 | as written the short transcript is handed over as plain text; corrected, it is a response carrying the transcript as message and the investigation's links |
| Pipeline.FinishTicket | main.py:62-87 | for either program, `main.py` as written or corrected, the response and update steps, run one after the other, attempt exactly the stages and return exactly the result the stage definition gives; JIRA is called only when the update runs, its first call is the comment, and it is not called at all exactly when the program as written hands a short transcript over as plain text |
| Pipeline.ProcessTicket | main.py:26-95 | for either program, each stage runs only after every earlier one returned; the stages attempted and the result are those of the stage definition; JIRA is called only by the update, comment first, and not at all exactly when the program as written has a short transcript |
| Pipeline.StagesInOrder | main.py:39-78 | the stages attempted are a prefix of fetch, analyse, investigate, respond, update, with the response possibly skipped, and nothing follows the update |
| Pipeline.FailedInvestigationSkipsUpdate | main.py:54-90 | a failed investigation neither responds nor updates, and the ticket fails |
| Pipeline.SuccessNeedsUpdate | main.py:26-95 | a ticket succeeds only after a successful fetch, analysis and investigation, a readable transcript, and an update JIRA accepted in full |
| Pipeline.RespondOnlyForLongTranscripts | main.py:68-74 | the response generator runs exactly for a successful investigation whose transcript exceeds 50000 characters |
| Pipeline.ShortTranscriptFails | main.py:73-78 | as written, a successful investigation with a transcript of at most 50000 characters always ends in failure |
| Pipeline.ShortTranscriptPosted | main.py:73-78 | corrected, such a ticket succeeds exactly when JIRA accepts the comment, the labels and the update |
| Pipeline.SuccessCount | main.py:143-148 | for either program, never more than the number of tickets |
| Pipeline.SuccessCountExact | main.py:143-148 | for either program, the count is the number of tickets that succeed |
| Pipeline.AllSucceed | main.py:151 | for either program, the count reaches the number of tickets exactly when every ticket succeeded |
| Pipeline.ShortTranscriptsFailBatch | main.py:68-148 | as written, a batch whose every investigation succeeds with a transcript of at most 50000 characters has no success at all |
| Pipeline.RunBatch | main.py:143-148 | for either program, the loop processes each ticket in argument order, records its result and counts the successes |
| Pipeline.RunMain | main.py:99-157 | for either program: no tickets exits with 2; a configuration that does not load exits with 1 before any ticket; otherwise every ticket is processed, the failures are counted, and the exit status is 0 exactly when all succeeded, else 1 |
| TicketProcessor.DescriptionEntry | src/core/ticket_processor.py:90-97 | the first entry exists exactly when the description is non-empty, and is a comment by the reporter at creation time headed `[Initial Description]` |
| TicketProcessor.CommentEntries | src/core/ticket_processor.py:99-106 | one comment entry per comment, in order, with its author, time and body |
| TicketProcessor.OrNone | src/core/ticket_processor.py:114 | a missing or empty value is shown as `None`, any other value as itself |
| TicketProcessor.Capitalize | src/core/ticket_processor.py:114 | capitalising keeps the length, upper-cases the first character and lower-cases every other one |
| TicketProcessor.TrackedFieldNames | src/core/ticket_processor.py:112-114 | the three tracked fields are shown as `Status`, `Assignee` and `Priority` |
| TicketProcessor.ItemEntries | src/core/ticket_processor.py:111-121 | at most one entry per item, each by the history's author at its time and typed as a status change or an assignment; no tracked item gives none, only tracked items give one each |
| TicketProcessor.ItemEntriesStep | src/core/ticket_processor.py:111-121 | each further item adds its entry exactly when it is a status, assignee or priority change |
| TicketProcessor.ChangelogEntries | src/core/ticket_processor.py:109-121 | every changelog entry is a status change or an assignment |
| TicketProcessor.ExtractCustomFields | src/core/ticket_processor.py:243-261 | the loop keeps exactly the mapped fields the issue has with a non-null value, under their readable names, at most four |
| TicketProcessor.CollectChanges | src/core/ticket_processor.py:111-121 | the loop over one history's items gives exactly its tracked entries, in order |
| TicketProcessor.CollectChangelog | src/core/ticket_processor.py:110-121 | the loop over the histories gives exactly their entries, in order |
| TicketProcessor.FetchTicket | src/core/ticket_processor.py:62-128 | the ticket copies the issue's fields with their defaults (`""` description, `Unknown` priority and reporter, no labels) and its conversation is the collected entries sorted by time |
| TicketProcessor.ConversationChronological | src/core/ticket_processor.py:123-124 | the conversation is in time order, holds exactly the collected entries, and keeps collection order among entries with the same time |
| TicketProcessor.DescriptionStaysFirst | src/core/ticket_processor.py:90-124 | when nothing predates the creation time the description entry stays first after the sort |
| TicketProcessor.FirstMatch | src/core/ticket_processor.py:270-274 | nothing exactly when no transition leads to the target ignoring case; otherwise the id of the first one that does |
| TicketProcessor.FindTransition | src/core/ticket_processor.py:269-274 | the loop with `break` finds the specification `FirstMatch` |
| TicketProcessor.TransitionTicket | src/core/ticket_processor.py:263-284 | the calls are the specification `Transitioned`: at most one transition call, to the first matching transition; none when the transitions cannot be listed or none matches |
| TicketProcessor.ClaudeLabels | src/core/ticket_processor.py:209-213 | always `claude-analyzed` first; `auto-resolved` exactly for a fix; `pr-created` exactly when it is not a fix and links exist; no label twice |
| TicketProcessor.TargetStatus | src/core/ticket_processor.py:221-226 | `Resolved` exactly for a high-confidence fix, `In Progress` exactly while investigated or guided, otherwise no transition |
| TicketProcessor.AddLabels | src/core/ticket_processor.py:215-217 | the loop appends each label that is not there yet, in order |
| TicketProcessor.UpdateWithClaudeResponse | src/core/ticket_processor.py:199-232 | plain text raises before any call; otherwise it comments first, and it completes exactly when the comment, the label read and the label update succeed, the update carrying the old labels plus the missing new ones; a completed update then makes exactly the transition `_transition_ticket` makes to the response's target status, or none when the response calls for none; no transition happens when it raises |
| TicketProcessor.ClaudeLabelsNoDuplicates | src/core/ticket_processor.py:205-219 | after the update no label is duplicated, the existing labels keep their order, and the new labels are present as the response calls for |
| TicketProcessor.ClaudeLabelsIdempotent | src/core/ticket_processor.py:215-217 | handling the same response twice leaves the labels as after the first time |
| TicketProcessor.FindingsComment | src/core/ticket_processor.py:168-181 | the findings comment opens with its heading and the summary and ends with the next steps and the footer |
| TicketProcessor.UpdateWithFindings | src/core/ticket_processor.py:165-197 | it comments first; it completes exactly when the comment and the label read succeed and no needed label update fails; `automated-analysis` is added only when absent |
| TicketProcessor.SolutionCommentShape | src/core/ticket_processor.py:137-150 | the solution comment opens with its heading and the summary, ends with the footer, and names a non-empty pull-request link |
| TicketProcessor.UpdateWithSolution | src/core/ticket_processor.py:134-163 | it comments first, raises exactly when the comment fails, calls nothing further unless the resolution is an automatic fix, and after a fix makes exactly the transition `_transition_ticket` makes to `Resolved` |
| TicketTracker.StoredList | src/database/ticket_tracker.py:96-98 | an absent or empty list is stored as NULL; any other list is stored and read back as itself |
| TicketTracker.RowsOf | src/database/ticket_tracker.py:140-144 | exactly the rows of the ticket |
| TicketTracker.RowsFor | src/database/ticket_tracker.py:219-231 | exactly the rows of the named user, or every row when no user (or an empty name) is given |
| TicketTracker.Limit | src/database/ticket_tracker.py:224-230 | a prefix of the rows, of length `limit` capped by the row count; a negative limit keeps every row |
| TicketTracker.RowsOfDistinct | src/database/ticket_tracker.py:34 | no row appears twice in a ticket's rows, the ids being increasing |
| TicketTracker.HistoryExact | src/database/ticket_tracker.py:127-158 | the history holds exactly the ticket's rows, each once, strictly newest first, as no two share a processing time |
| TicketTracker.SameTimeSameRow | src/database/ticket_tracker.py:46 | two rows of one ticket with the same processing time are the same row |
| TicketTracker.RecentNewestFirst | src/database/ticket_tracker.py:205-240 | the recent rows number at most `limit`, all pass the user filter, and come newest first |
| TicketTracker.CountUser | src/database/ticket_tracker.py:175 | never more than the rows |
| TicketTracker.CountSuccess | src/database/ticket_tracker.py:176-177 | never more than the rows |
| TicketTracker.CountWithPrs | src/database/ticket_tracker.py:187-191 | never more than the rows |
| TicketTracker.TicketsOf | src/database/ticket_tracker.py:179 | exactly the tickets the user has a row for |
| TicketTracker.SuccessPlusFailed | src/database/ticket_tracker.py:175-177 | successful and failed rows add up to the user's total |
| TicketTracker.CountsBounded | src/database/ticket_tracker.py:175-191 | the distinct tickets and the rows with links never exceed the user's total |
| TicketTracker.NoRowsNoStatistics | src/database/ticket_tracker.py:195-203 | a user without rows gets zero everywhere, the `or 0` turning the empty sums into 0 |
| TicketTracker.InsertKeepsWellFormed | src/database/ticket_tracker.py:33-46 | inserting under the next id a row whose ticket and time are new keeps ids increasing and below the counter and the (ticket, time) pairs unique |
| TicketTracker.TicketTracker.constructor | src/database/ticket_tracker.py:16-63 | a new database holds no row and hands out id 1 next |
| TicketTracker.TicketTracker.LogTicketProcessing | src/database/ticket_tracker.py:65-125 | a new (ticket, time) pair appends exactly one row under the next id, with empty lists stored as NULL, and returns that id; a repeated pair raises and leaves the table unchanged |
| TicketTracker.TicketTracker.GetTicketHistory | src/database/ticket_tracker.py:127-158 | the ticket's rows ordered newest first |
| TicketTracker.TicketTracker.GetRecentTickets | src/database/ticket_tracker.py:205-240 | the user's rows, or all rows, newest first, cut to `limit` |
| TicketTracker.TicketTracker.GetUserStatistics | src/database/ticket_tracker.py:160-203 | the loop's counts equal the user's total, successes, failures, distinct tickets and rows with links |
| Sorting.SortByCorrect | src/core/ticket_processor.py:124 | `list.sort(key=...)` as used on the conversation and on the log entries: the result is ordered by key, is a permutation of the input (same multiset, same length), and keeps the input order among elements with equal keys (stability) |
| Sorting.StableFirst | src/collectors/log_reader.py:110 | a stable sort keeps in front an element that came first and whose key no other element undercuts |
| Sequences.AppendAbsent | src/core/ticket_processor.py:215-217 | appending each new label only when absent keeps the old list as a prefix, adds only elements that were absent, yields exactly the union of elements, and keeps a repetition-free list repetition-free |
| Sequences.AppendAbsentIdempotent | src/core/ticket_processor.py:215-217 | adding the same labels a second time changes nothing |
| Sequences.Dedup | src/integrations/claude_executor.py:250 | de-duplication of the pull-request links: no repetitions, exactly the same set of elements, never longer |
| Dicts.GetPut | src/core/config.py:99-102 | after `d[k] = v`, `k` holds `v` and every other key keeps what it held |
| Dicts.PutKeys | src/core/config.py:99-102 | after `d[k] = v` the keys are those of `d` plus `k` |
| Text.Strip | src/collectors/log_reader.py:240 | `str.strip()` is empty exactly when the text is all whitespace, and otherwise starts and ends with a non-space character |
| Text.SplitJoin | src/collectors/log_reader.py:174 | splitting at a separator undoes joining parts that do not contain it |

## Left out

- External services are inputs, not models: the JIRA client, the DeepSeek and Alpaca HTTP calls, asyncpg, the SQLite connection, asyncssh/paramiko and subprocess spawning. Each appears as the value it returns or the failure it raises.
- Concurrency is left out. The `asyncio.gather` fan-out of the log search becomes the list of per-server outcomes, in server order.
- Floating point is left out:
  - the transaction amount totals of `_show_summary`;
  - `avg_execution_time` and `execution_time`;
  - temperatures and success-rate percentages.
  The code explorer's confidence constants are kept as real literals.
- Clocks and calendars are parameters. `datetime.now` is an integer `now`. `strftime`, `isoformat` and `str(datetime)` are a rendering function. `_parse_jira_datetime` and the ISO 8601 timestamp regex of `_parse_log_line` are a timestamp function.
- Foreign libraries are parameters or inputs:
  - `json.loads`/`dumps`, `yaml.safe_load` and `dataclass_to_json`;
  - base64 of the Basic authorization header (section 2 of RFC 7617);
  - the CSV and JSON printers of the commands;
  - `str()` of objects the model does not define.
- The four pull-request link patterns are written out by hand rather than run through a regular-expression engine (`ClaudeExecutor.MatchAt`, `ClaudeExecutor.GithubPullAt`, `ClaudeExecutor.LabelledAt`, `ClaudeExecutor.FindAllFrom`, `ClaudeExecutor.AllMatches`, `ClaudeExecutor.PrUrls`). `re.IGNORECASE` is modelled as ASCII case folding only. `\d` is the ASCII digits; `\s` is Python's Unicode whitespace.
- The relative-time grammar, the `YYYY-MM-DD` check, the level-keyword search and the pull-request link matchers are written out by hand. Their digit classes are ASCII, and so is their case folding, as is the model's `lower()`/`upper()`.
- langchain's `JsonOutputParser.parse` is an input: the fields of the parsed reply, or the error it raised. The Pydantic `Literal` and range constraints are stated as a validator (`DeepSeekClient.SchemaAdmits`), not as something the parser is assumed to enforce.
- Prompt prose is modelled only through its structural facts: which sections appear, and the markers it always contains.
- File writes, prints and logging are left out. For the `--verbose` echo of requests only the printing is left out: the masked header map it prints is modelled (`AlpacaAch.Masked`, `AlpacaAch.MaskHidesCredentials`). The file-system checks of `Config.validate` (`Path.exists`) are a parameter. The `.env` loading and path resolution are left out.
- YAML documents whose keys are not strings are not modelled: the configuration is a dictionary with string keys.
- Python dictionaries are entry lists in insertion order. A duplicate key in a JSON object is resolved as `dict` does: the later value overwrites the earlier one where it stands.
- The texts of `TypeError`, `AttributeError` and `KeyError` raised by Python itself are approximated. Only the texts the source builds are modelled exactly.
- `src/collectors/db_queries.py`, `cli/commands/deploy.py`, `cli/main.py`, `view_ticket_db.py`, `src/utils/logger.py` and `cli/utils/colors.py` are not part of this model. The colour codes are parameters of the table formatters.
- ClaudeExecutor.ExtractPrUrls: the links are kept in order of first occurrence. `list(set(...))` gives them in an unspecified order, so the model promises that order where the source promises only the set of links and no repetitions.
- SqlQuery.ParseInt: accepts optional surrounding whitespace, one sign and ASCII digits. `int()` also accepts single underscores between digits (`"1_000"`) and non-ASCII decimal digits. The model rejects those strings where `int()` returns a number.
- RelativeTime.ParseRelativeTime: succeeds for every well-formed period however large. `timedelta` raises `OverflowError` beyond 999999999 days, and so does subtracting past year 1. The model has no bound for either, because the clock is an unbounded integer.
- DeepSeekClient.MapCustomer: a customer key missing from the reply gets its default. A key present with JSON `null` is kept as `None` by `.get(key, default)`, but the model gives it the default too, because an absent key and a `null` are the same `None` here.
- DeepSeekClient.MapTimeframe: the same conflation of a missing key and a `null` value as `MapCustomer`.
- DeepSeekClient.MapAnalysis: a `customer_info`, `issue_timeframe` or `technical_details` present as `null` makes `.get(...)` on `None` raise `AttributeError` in the source. The model maps it to the defaults of a missing block, for the same reason.
- LogReader.FirstWordAt: the word boundaries `\b` around the level keywords use ASCII word characters (`[A-Za-z0-9_]`). On a `str` pattern Python's `\b` uses Unicode `\w`, so a keyword right after a non-ASCII letter or digit (`éERROR`) is not a whole word in the source. The model does find it there, because Unicode's letter and digit classes are not modelled.
- LogReader.LevelFromFirst: for the same reason, a line such as `éERROR disk full` gets the level `ERROR` in the model where the source keeps `INFO`. The results agree on every line whose keywords are not next to a non-ASCII letter or digit.
- TicketTracker.TicketTracker.GetRecentTickets: rows with the same `processed_at` are kept in insertion order, and the limit cuts that order. SQLite's `ORDER BY processed_at DESC LIMIT ?` leaves the order of equal times unspecified, and with it which tied rows the limit keeps. The model fixes one choice where the source promises only the time order.
- The audit table lives in memory, and its ids are handed out from 1 upwards as SQLite's `INTEGER PRIMARY KEY AUTOINCREMENT` does for a table that is only inserted into. Reopening the database file is not modelled.

## Behaviours of the source kept as written

These are modelled as the code behaves, and each is stated by the member named after it.

- The header of a transactions table is as wide as the separator only when no shown column name exceeds 30 characters. The header pads names but never cuts them, so longer names shift the header. (`Transactions.TableAligned`)
- When a reply exceeds 200 characters only because of surrounding whitespace, `...` is still added. The length compared with 200 is the raw one, but the stripped text is not cut. (`CodeExplorer.EllipsisWithoutCut`)
- The "No ACH relationships found" line of `_format_table` can never be printed, because the empty cases return earlier. (`AlpacaAch.InputNormalised`)
- When the first record is an empty dictionary, a later element that is not a dictionary never raises, because no column is looked up in it. (`AlpacaAch.FormatTable`)
- The service, the user id and the grep pattern are placed inside the single-quoted remote command. Only `"` and `$` of the grep pattern are escaped, so a `'` in any of them ends the quoting. (`LogsCommand.BuildSshCommand`)
- The grep pattern escapes only `"` and `$`. Inside bash's double quotes a backslash also escapes a backslash, a backquote and a newline, and an unescaped backquote runs a command. So `a\\b` reaches grep as `a\b`, a backquoted command in the pattern runs on the server, and a final backslash leaves the quoting open. (`LogsCommand.BackslashesHalved`, `LogsCommand.BackquoteSubstitutes`, `LogsCommand.TrailingBackslashOpensQuote`)
- `--email ""` is falsy, so it selects no condition, just as a missing email does. (`UserCommand.BuildQuery`)
- The fallback message lists the pull-request links twice, once in its own text and once in the final-message formatting. The model keeps both. (`ClaudeLogProcessor.FallbackListsLinksTwice`)

## Findings

| source | as written | input that shows it | evidently intended | confidence | as-written member | corrected member |
|---|---|---|---|---|---|---|
| src/integrations/claude_log_processor.py:65-78 | `JsonOutputParser.parse` returns a dictionary, and `jira_response_data.response_message` reads it as an attribute. That raises `AttributeError`, so every reply takes the `except` fallback. | a complete reply whose `resolution_type` is `fixed`, after a successful investigation: the response says `investigated` | read the reply's keys, so that a complete reply becomes the response | medium, not executed | ClaudeLogProcessor.AsWrittenDiscardsReply | ClaudeLogProcessor.GenerateResponse |
| main.py:68-78 | a transcript of at most 50000 characters is passed as a plain `str`. `update_ticket_with_claude_response` reads `.message` from it first, which raises. | a successful investigation whose transcript is 100 characters long: the ticket gets no comment and counts as failed | post the short transcript as the comment and go on with the label and status rules | high, not executed | Pipeline.ShortTranscriptFails | Pipeline.ShortTranscriptPosted |
