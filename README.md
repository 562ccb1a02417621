# Task agent: intent dispatch, sandbox gate and handler kernels

This project models the decision logic of a small automation agent. The agent
receives a task in plain English and asks a completion service to turn it into
a descriptor of the form `{"function": ..., "params": ...}`. It then looks the
name up in a fixed table of eleven handlers and calls the handler it finds.
The project models the parts of that flow which are plain string, list and
decision rules, and proves properties about them:

- `finalmain.py`:
  - intent resolution (`determine_task`): the code-fence strip and the parse;
  - the `task_functions` table and the `/run` dispatch chain (`run_task`);
  - the `/read` path prefixing (`read_file`);
  - the kernels of five handlers: `count_days`, `sort_contacts`,
    `write_recent_logs`, `create_markdown_index` and
    `extract_credit_card_number`.
- `project-phase2.py`:
  - the sandbox gate (`enforce_security_constraints`);
  - the `execute_task` action chain, including which path arguments each
    handler gates before it does any I/O;
  - the `/run` endpoint with its empty-task check.
- `test_count_days.py`: the `count_wednesdays` counting loop.

What the model assumes about the world:

- JSON values are a datatype (`PyValues.Json`). A JSON object's fields are
  kept as a sequence of pairs, so dictionary insertion order is preserved.
- The file system is a map from path strings to `File(text)` or `Dir`
  (`FileSystem.Fs`). A handler returns the new file system together with its
  result or its Python exception (`HandlerOutcome.Outcome`).
- Every outside service becomes a function parameter:
  - the completion service, with the prompt folded into it;
  - `json.loads` and `json.dump`;
  - the handler call itself;
  - `strptime` and dateutil's parser;
  - directory globbing and file modification times;
  - OCR;
  - the work of the phase-2 handlers after their gates.

Modules, one per file:

- `values.dfy` (PyValues): JSON values, Python error values and truthiness.
- `strings.dfy` (PyStrings): `strip`, `lstrip`/`rstrip` with a character set,
  `split`, `join`, line splitting and integer to string.
- `filesystem.dfy` (FileSystem): the file system map.
- `handlers.dfy` (HandlerOutcome): handler outcomes.
- `sorting.dfy` (Sorting): Python's stable `sorted` with a key, as insertion
  sort over a total preorder.
- `agent.dfy` (TaskAgent): `determine_task`, the handler table, keyword
  binding, `run_task` and `read_file`. Its properties are in
  `agent_props.dfy` (TaskAgentProperties).
- The kernel modules: `count_days.dfy` (DayCounter), `contacts.dfy`
  (ContactSorter), `recent_logs.dfy` (RecentLogs), `markdown_index.dfy`
  (MarkdownIndex) and `card_number.dfy` (CardNumber).
- `wednesdays.dfy` (WednesdayCounter): `count_wednesdays`.
- `phase2.dfy` (SandboxAgent): the phase-2 service.

The handlers that loop in the source are written as methods with loops:
`count_days`, `write_recent_logs`, `create_markdown_index` and
`count_wednesdays`. Each method is proved equal to a recursive function, and
the properties are proved about that function. Everything else is pure
functions and lemmas.

Where the system's design description and its code differ, the model follows
the code:

- The gate is a plain prefix test on the raw string, with no normalisation.
  `"/database"` and `"/data/../etc/passwd"` both pass it
  (`SandboxAgent.GateDoesNotNormalise`).
- `read_file` in `finalmain.py` does not gate its path. It only puts "." in
  front of it.
- A params value that is not a dict is always bound as `user_email`. Only
  `install_uv_and_run_datagen` accepts that keyword; every other handler
  fails with a `TypeError`, which surfaces as status 500.
- Errors are HTTP status codes with a detail string, not a `{status: error,
  kind, message}` envelope.
- Only completion text that starts with "```json" has a fence stripped, and
  the strip removes characters from a set rather than a prefix. A fenced
  answer parses like the unwrapped one when the fence is "```json" plus a
  newline, and the body is followed by a newline and three backticks.

## Model

| member | source | states |
|---|---|---|
| PyValues.Lookup | finalmain.py:476-477 | `dict.get` finds a key exactly when some field has that key, and the value returned is that field's value |
| PyStrings.LStrip | finalmain.py:452 | `lstrip(chars)` drops exactly the leading run of characters in the set: what is left is a suffix, everything dropped is in the set, and the first character kept is not |
| PyStrings.RStrip | finalmain.py:452 | `rstrip(chars)` drops exactly the trailing run of characters in the set: a prefix is left, everything dropped is in the set, and the last character kept is not |
| PyStrings.Strip | finalmain.py:160 | `strip()` returns a slice of its input with no whitespace at either end |
| PyStrings.StripIsIdempotent | finalmain.py:160 | stripping twice is stripping once |
| PyStrings.StripPadded | finalmain.py:160 | whitespace added around a string does not change its strip |
| PyStrings.LStripPrefix | finalmain.py:452 | a prefix made only of characters in the set is removed entirely by `lstrip` |
| PyStrings.RStripSuffix | finalmain.py:452 | a suffix made only of characters in the set is removed entirely by `rstrip` |
| PyStrings.LStripAppend | finalmain.py:452 | `lstrip` of a concatenation goes into the second string only when the first strips to nothing |
| PyStrings.SliceFrom | finalmain.py:184 | `s[k:]` is the suffix from k, or empty when k is past the end |
| PyStrings.Take | finalmain.py:335 | `s[:k]` is a prefix of length min(k, len(s)) |
| PyStrings.Split | finalmain.py:249 | `split(c)` yields at least one piece and no piece contains the separator |
| PyStrings.JoinSplit | finalmain.py:246-249 | joining the pieces of `split(c)` with `c` gives back the string |
| PyStrings.SplitNoSeparator | finalmain.py:249 | a string without the separator splits into itself alone |
| PyStrings.SplitAfterPiece | finalmain.py:249 | splitting `w + c + t` gives `w` followed by the pieces of `t` |
| PyStrings.SplitJoinThen | finalmain.py:208 | splitting lines joined with "\n", followed by "\n" and a tail, gives those lines back, then the pieces of the tail |
| PyStrings.UniversalNewlines | finalmain.py:158 | text-mode reading leaves no carriage return and never lengthens the text |
| PyStrings.Lines | finalmain.py:159 | iterating over a file yields at least one line, and no line holds a line break |
| PyStrings.NonBlankCount | finalmain.py:161 | the number of lines that are not blank is at most the number of lines |
| PyStrings.NatToString | finalmain.py:173 | `json.dump` of a count writes a non-empty string of decimal digits |
| FileSystem.ReadText | finalmain.py:158 | `open(p, "r").read()` succeeds exactly on a file and yields its text; a missing path is FileNotFoundError, a directory IsADirectoryError |
| FileSystem.WriteText | finalmain.py:172-173 | writing succeeds unless the path is a directory; the file then reads back the text, and no other path changes |
| FileSystem.Rename | finalmain.py:313-314 | after a rename the destination holds the source's node, the source is gone unless it is the destination, and every other path is unchanged |
| HandlerOutcome.Written | finalmain.py:207-209 | a handler's final write either replaces that one path with the text and returns the message, or fails on a directory with the file system unchanged |
| Sorting.InsertPermutes | finalmain.py:183 | inserting adds exactly that element to the multiset |
| Sorting.InsertSorted | finalmain.py:183 | inserting into a sorted list under a total preorder keeps it sorted |
| Sorting.InsertClass | finalmain.py:183 | insertion places an element after every earlier element with an equal key, so each class of equal keys keeps its order |
| Sorting.SortIsOrderedPermutation | finalmain.py:183 | `sorted` returns an ordered permutation of its input |
| Sorting.SortIsStable | finalmain.py:183 | `sorted` is stable: the elements with a given key appear in input order |
| Sorting.SortOfSorted | finalmain.py:183 | a list that is already sorted is returned unchanged |
| Sorting.SortIdempotent | finalmain.py:183 | sorting a second time changes nothing |
| TaskAgent.DictGet | finalmain.py:450 | `.get(k, default)` succeeds only on a dict; it returns the value of a present key and the default for a missing one |
| TaskAgent.Index0 | finalmain.py:450 | `[0]` succeeds on a non-empty list or string; on a list it yields the first item |
| TaskAgent.ExtractContent | finalmain.py:450 | the content drawn from a completion response is stripped |
| TaskAgent.DecodeText | finalmain.py:453-457 | `json.loads` succeeds exactly when the text decodes, with the decoded value |
| TaskAgent.FindHandler | finalmain.py:411-423 | the lookup finds a handler whose table name is the given name; when it finds none, no handler has that name |
| TaskAgent.FindHandlerOfName | finalmain.py:411-423 | each of the eleven handlers is found under its own table name, and no name is empty |
| TaskAgent.UnexpectedKeyword | finalmain.py:493 | no keyword is reported exactly when every keyword is a parameter; one that is reported is given and is not a parameter |
| TaskAgent.MissingRequired | finalmain.py:493 | nothing is missing exactly when every required parameter was given; each name reported was not given |
| TaskAgent.Fill | finalmain.py:493 | the bound arguments cover exactly the handler's parameters: a given value where there is one, the default None otherwise |
| TaskAgent.Bind | finalmain.py:493 | `f(**params)` binds exactly when every keyword is a parameter and every required parameter is given; the binding covers all parameters, and a failure is a TypeError |
| TaskAgent.Call | finalmain.py:492-497 | the handler is called once, with the bound arguments, exactly when binding succeeds; otherwise it is not called |
| TaskAgent.Resolve | finalmain.py:488 | a resolved handler is the one whose table name the descriptor gave |
| TaskAgent.Dispatch | finalmain.py:470-497 | at most one handler runs, and only the handler the descriptor's "function" names; a descriptor that is not a dict is a 500 "Task information format error"; a name that is a non-empty list or dict is an uncaught "unhashable type" TypeError from the `not in task_functions` test |
| TaskAgent.RunTask | finalmain.py:461-497 | a request calls at most one handler, and only when determine_task succeeded and named that handler |
| TaskAgent.ReadFile | finalmain.py:500-515 | `/read` reads "." + path: a missing path is 404, success happens exactly on a file, and the result is its text |
| TaskAgentProperties.ContentOfRespond | finalmain.py:450 | the content extracted from a well-formed response is its stripped message text |
| TaskAgentProperties.FenceOpens | finalmain.py:451 | text fenced as "```json\n" + body + "\n```" is already stripped and starts with "```json" |
| TaskAgentProperties.FenceLeft | finalmain.py:452 | `lstrip("```json")` removes the opening fence up to the newline |
| TaskAgentProperties.FenceRight | finalmain.py:452 | `rstrip("```")` removes the closing backticks and keeps the newline |
| TaskAgentProperties.NewlinePadded | finalmain.py:452 | the final `strip()` removes the newlines around the body |
| TaskAgentProperties.FenceStripped | finalmain.py:451-452 | the fence strip of a fenced body yields the stripped body |
| TaskAgentProperties.UnfencedKept | finalmain.py:451 | text not starting with "```json" is left as it is |
| TaskAgentProperties.FenceStripIsCharacterSet | finalmain.py:451-452 | after "```json", any run of the characters ` j s o n is dropped, not just the marker; then trailing backticks and whitespace go |
| TaskAgentProperties.FencePrefixDropped | finalmain.py:452 | `lstrip` removes the marker and every following fence character, and stops at the first other character |
| TaskAgentProperties.DetermineOnResponse | finalmain.py:449-454 | determine_task parses the fence-stripped, stripped message content |
| TaskAgentProperties.FencedCompletionParsesAsUnwrapped | finalmain.py:449-454 | a completion fenced as "```json\n…\n```" resolves to the same descriptor, or the same error, as the unwrapped one |
| TaskAgentProperties.AnyMalformedIsValueError | finalmain.py:449-457 | for any completion text, padded or fenced, a remainder that does not decode after the strip and the fence strip raises ValueError quoting that remainder and the decoder's reason |
| TaskAgentProperties.AnyMalformedInvokesNothing | finalmain.py:449-468 | the same at the endpoint, for any completion text: 500 "LLM processing error: " with that message, and no handler runs |
| TaskAgentProperties.MalformedIsValueError | finalmain.py:453-457 | text that does not parse raises ValueError with a message that holds the text and the decoder's reason |
| TaskAgentProperties.MalformedCompletionInvokesNothing | finalmain.py:453-468 | a completion that does not parse ends in 500 "LLM processing error: …" and calls no handler |
| TaskAgentProperties.CompletionFailureInvokesNothing | finalmain.py:449-468 | a failing completion service ends in 500 "LLM processing error: …" with its message, and calls no handler |
| TaskAgentProperties.IntentFailureInvokesNothing | finalmain.py:463-468 | any failure of determine_task ends in 500 and calls no handler |
| TaskAgentProperties.NonDictDescriptorRejected | finalmain.py:471-473 | a descriptor that is not a dict ends in 500 "Task information format error" and calls no handler |
| TaskAgentProperties.MissingFunctionRejected | finalmain.py:476-481 | a missing or falsy "function" ends in 400 "Missing 'function' key in task_info" and calls no handler |
| TaskAgentProperties.UnknownFunctionRejected | finalmain.py:488-490 | a name outside the table ends in 400 "Function '<name>' not recognized." and calls no handler |
| TaskAgentProperties.NonStringNameRejected | finalmain.py:479-490 | a truthy number or boolean as the name is never in the table: 400 "Function '<str(name)>' not recognized." and no call |
| TaskAgentProperties.UnhashableNameUncaught | finalmain.py:479-490 | a non-empty list or dict as the name raises an uncaught TypeError "unhashable type: '<type>'" at the `in` test, and no handler runs |
| TaskAgentProperties.RegisteredHandlerRunsOnce | finalmain.py:492-497 | a registered name with binding params calls that handler exactly once with the bound arguments; a return is wrapped as success, an exception becomes 500 "Task execution error: " + its message |
| TaskAgentProperties.DispatchToCall | finalmain.py:476-493 | a descriptor that names a handler goes to that handler, with the params (default {}) as keywords |
| TaskAgentProperties.NoUserEmailParam | finalmain.py:39 | only install_uv_and_run_datagen has a `user_email` parameter |
| TaskAgentProperties.UserEmailRejected | finalmain.py:484-493 | binding `{"user_email": …}` to any other handler raises TypeError "<name>() got an unexpected keyword argument 'user_email'" |
| TaskAgentProperties.BindUnexpected | finalmain.py:484-493 | the first unexpected keyword in the call decides the TypeError "<name>() got an unexpected keyword argument '<key>'" |
| TaskAgentProperties.UnexpectedSingle | finalmain.py:484-493 | a single keyword that names no parameter is the unexpected one |
| TaskAgentProperties.DatagenBindsScalar | finalmain.py:39 | install_uv_and_run_datagen binds `{"user_email": v}` to exactly that argument |
| TaskAgentProperties.ScalarParamsBindOnlyForDatagen | finalmain.py:484-497 | a non-dict params value runs install_uv_and_run_datagen with it as user_email; for every other handler it is 500 with the TypeError's message, and no handler runs |
| DayCounter.WeekdayNumber | finalmain.py:137-142 | a weekday name is accepted exactly when it is one of the seven names, and maps to the day with that name |
| DayCounter.WeekdayNamesRoundTrip | finalmain.py:137-140 | every weekday's name maps back to that weekday |
| DayCounter.FirstFormat | finalmain.py:163-171 | the format used is the first one that parses: every earlier one fails, and it succeeds |
| DayCounter.FirstParse | finalmain.py:163-171 | a line yields no date exactly when every format fails on it |
| DayCounter.FirstParseIgnoresRepeats | finalmain.py:144-154 | formats that repeat earlier ones never change the result |
| DayCounter.RepeatedFormatsAreDead | finalmain.py:144-154 | the two repeated formats at the end of the list are never the one that parses |
| DayCounter.SameFirstFormat | finalmain.py:163-169 | when format k parses and every earlier one failed, the loop breaks at k |
| DayCounter.TryFormats | finalmain.py:163-171 | the inner loop over formats returns the weekday of the first format that parses, or none |
| DayCounter.ScoreOfLine | finalmain.py:159-171 | a line counts 1 exactly when its stripped text is not empty and its first successful parse falls on the target day, else 0 |
| DayCounter.DayCountStep | finalmain.py:159-171 | each line adds its own score to the count of the lines before it |
| DayCounter.DayCountBounded | finalmain.py:157-171 | the count never exceeds the number of lines that are not blank |
| DayCounter.CountMatches | finalmain.py:157-171 | the counting loop computes the count over all lines in order |
| DayCounter.CountDaysHandler | finalmain.py:134-174 | an invalid weekday name is refused before the file is touched; a missing file is refused; otherwise the count is written as JSON to "." + output, with the A3 message |
| ContactSorter.StrLeqTotal | finalmain.py:183 | string comparison is total |
| ContactSorter.StrLeqTrans | finalmain.py:183 | string comparison is transitive |
| ContactSorter.StrLeqRefl | finalmain.py:183 | string comparison is reflexive |
| ContactSorter.StrLeqAntisym | finalmain.py:183 | strings that compare both ways are equal |
| ContactSorter.ContactLeqTrans | finalmain.py:183 | the (last_name, first_name) tuple order is transitive |
| ContactSorter.ContactLeqIsTotalPreorder | finalmain.py:183 | the (last_name, first_name) tuple order is a total preorder |
| ContactSorter.Elements | finalmain.py:182-183 | iterating over a decoded JSON list yields its items |
| ContactSorter.FirstNonDict | finalmain.py:183 | a contact without `get` is reported exactly when some element is not a dict |
| ContactSorter.FirstNonStringName | finalmain.py:183 | nothing is reported exactly when every contact is a dict whose names are strings or missing |
| ContactSorter.SortedContacts | finalmain.py:183 | a successful sort is the stable sort of the loaded elements by the name key |
| ContactSorter.ContactsSorted | finalmain.py:183 | the sorted contacts are ordered by (last_name, first_name), are a permutation of the input, keep equal keys in input order, and sort again to the same list |
| ContactSorter.SortContactsHandler | finalmain.py:175-187 | every path has its outcome: a missing input is a ValueError naming it; a directory is an IsADirectoryError; a decode error is a ValueError with its message; a sort error is passed on; otherwise the dump of the sorted contacts is written under "./data/" with "A4 Completed: Sorted contacts stored in " and `output_file[5:]`; on failure nothing is written |
| ContactSorter.ContactsAlwaysUnderData | finalmain.py:184-185 | the output path always lies under "./data/", whatever the first five characters of output_file are |
| RecentLogs.FirstLine | finalmain.py:203 | the first line read is stripped and holds no line break |
| RecentLogs.WriteRecentLogsHandler | finalmain.py:190-209 | a missing logs directory is refused; otherwise the kept first lines of the ten newest logs are written joined by newlines, with a final newline |
| RecentLogs.ReadFirstLines | finalmain.py:200-205 | the loop collects the non-empty first lines of the files in order, and stops at the first file that cannot be read |
| RecentLogs.FirstLinesStep | finalmain.py:201-205 | each file read adds its first line when the line is not empty |
| RecentLogs.FirstLinesStopsAt | finalmain.py:201-203 | after a read error the remaining files do not matter |
| RecentLogs.NewerFirstIsTotalPreorder | finalmain.py:195-198 | "newer or as new" is a total preorder |
| RecentLogs.RecentAreNewest | finalmain.py:195-199 | at most ten files are chosen, newest first; they are drawn from the listing, and no file left out is newer than one chosen |
| RecentLogs.RecentKeepsListingOrder | finalmain.py:195-199 | the reversed sort is stable: among files with the same modification time, the ones chosen are the first ones in listing order |
| Sorting.ClassOfPrefix | finalmain.py:199 | cutting a list to its first k elements cuts each class of equal keys to a prefix of that class |
| RecentLogs.SortedSplit | finalmain.py:199 | the first k of a newest-first list stay newest-first, and none of the rest is newer than any of them |
| RecentLogs.FirstLinesAreStripped | finalmain.py:200-205 | no more lines than files are kept, and every kept line is non-empty, stripped and without line breaks |
| RecentLogs.KeptLine | finalmain.py:204-205 | keeping a line only when non-empty preserves that every kept line is non-empty and stripped |
| RecentLogs.RecentLogsTextReadsBack | finalmain.py:208 | the written text splits back at newlines into the kept lines plus the empty piece after the final newline |
| MarkdownIndex.Replace | finalmain.py:246 | `replace` changes exactly the occurrences of one character and keeps the length |
| MarkdownIndex.Title | finalmain.py:258 | the title has no whitespace at either end |
| MarkdownIndex.FirstWhere | finalmain.py:255-261 | the position found is the first line from the start position that passes the test (for titles: whose stripped text starts with "# ") |
| MarkdownIndex.FirstWhereAt | finalmain.py:255-261 | the search stops exactly at the first line that passes the test |
| MarkdownIndex.FirstH1 | finalmain.py:255-261 | there is no title exactly when no line is an H1 |
| MarkdownIndex.FindTitle | finalmain.py:255-261 | the line loop with its break returns the title of the first H1 line |
| MarkdownIndex.Put | finalmain.py:259 | assigning to a present key keeps the key order; a new key goes last |
| MarkdownIndex.PutMembers | finalmain.py:259 | after an assignment the new entry is present and every other entry was already there |
| MarkdownIndex.PutKeepsDistinct | finalmain.py:259 | an assignment keeps the keys distinct |
| MarkdownIndex.BuildIndex | finalmain.py:240-261 | the walk over the markdown files computes the index, stopping at the first file that cannot be read |
| MarkdownIndex.IndexStep | finalmain.py:243-261 | each file adds its step to the index built so far |
| MarkdownIndex.IndexStopsAt | finalmain.py:254 | after a read error the remaining files do not matter |
| MarkdownIndex.CreateMarkdownIndexHandler | finalmain.py:212-269 | a missing directory is refused with its remapped path; otherwise the index is dumped to the remapped output path, with the A6 message |
| MarkdownIndex.RemapInjective | finalmain.py:219-227 | different paths are remapped to different paths |
| MarkdownIndex.RemapIsTextual | finalmain.py:219-222 | every path "/data" + s is looked for at "documents/llm/data" + s, whatever s is (so "/database/x" is remapped too); every other path gets "." in front |
| MarkdownIndex.FirstH1At | finalmain.py:255-261 | the title found is the title of the first line whose stripped text starts with "# " |
| MarkdownIndex.BackslashReplaced | finalmain.py:246 | an index key holds no backslash |
| MarkdownIndex.PutKeepsWellFormed | finalmain.py:246-259 | adding an allowed key with a stripped title keeps the index well formed |
| MarkdownIndex.IndexIsWellFormed | finalmain.py:238-261 | the index keys are distinct, each lies in an allowed first-level directory with no backslash, and each title is stripped |
| MarkdownIndex.SkippedDirectoryAddsNothing | finalmain.py:249-252 | a file outside the allowed directories leaves the index as it is |
| MarkdownIndex.EntryMeaning | finalmain.py:243-261 | a file contributes the member (key, title) exactly when its key is its relative path with slashes, its first directory is allowed, it can be read, and the title is that of its first H1 line |
| MarkdownIndex.MapEntries | finalmain.py:246 | the contributions list has one entry per file, in walk order |
| MarkdownIndex.PutLookup | finalmain.py:259 | after `index_data[k] = v`, key k gives v and every other key gives what it gave before |
| MarkdownIndex.IndexLast | finalmain.py:246-261 | the last step of the walk assigns the last file's contribution, if it has one |
| MarkdownIndex.IndexLookup | finalmain.py:246-261 | looking any key up in the index gives the value of the last file contributing that key, or nothing when none does |
| MarkdownIndex.LastEntryFrom | finalmain.py:259 | the reference "last contribution" is absent exactly when no file contributes the key, and otherwise is the contribution of a file after which no file contributes that key |
| MarkdownIndex.LookupDistinct | finalmain.py:259 | in a dict with distinct keys, each member's key looks up that member's value |
| MarkdownIndex.IndexMeaning | finalmain.py:243-261 | every index member is the contribution of some file, namely the last file contributing that key; every file that contributes a member has its key in the index |
| CardNumber.DigitsOf | finalmain.py:332 | the digit filter yields only digits and never lengthens its input |
| CardNumber.DigitsOfAppend | finalmain.py:332 | the digit filter distributes over concatenation |
| CardNumber.DigitsOfDigits | finalmain.py:332 | a string of digits is kept whole, and a string without digits vanishes |
| CardNumber.DigitsOfIdempotent | finalmain.py:332 | filtering twice is filtering once |
| CardNumber.SeparatorsIgnored | finalmain.py:332 | separators between digit groups do not change the number |
| CardNumber.CardDigitsAreFirstSixteen | finalmain.py:332-339 | a number is accepted exactly when the answer holds at least sixteen digits, and then it is the first sixteen of them |
| CardNumber.MissingImageChangesNothing | finalmain.py:307-309 | a missing image is refused before anything changes |
| CardNumber.HandlerOutcomes | finalmain.py:293-348 | once the image exists the backup is always made; too few digits writes nothing more; otherwise the output holds the sixteen digits, with the A8 message |
| CardNumber.BackupMovesCardFile | finalmain.py:311-314 | the backup moves "/data/credit-card.txt" when it exists and touches no other path |
| SandboxAgent.Gate | project-phase2.py:50-54 | a path passes exactly when it is a string starting with "/data" and is not an existing directory; the prefix test comes first |
| SandboxAgent.GateAcceptsExactly | project-phase2.py:50-54 | a path outside "/data" is refused whatever the file system holds; a path under it that does not exist is accepted |
| SandboxAgent.GateDoesNotNormalise | project-phase2.py:51 | "/database" and "/data/../etc/passwd" pass the prefix test |
| SandboxAgent.ActionOf | project-phase2.py:59-76 | an action is recognised only by its exact name |
| SandboxAgent.Args | project-phase2.py:59-76 | each handler argument is `parsed_task.get(key)` |
| SandboxAgent.Gated | project-phase2.py:81-130 | the gated positions are argument positions of the action |
| SandboxAgent.FirstDenial | project-phase2.py:81-130 | no denial is reported exactly when every gated argument passes the gate |
| SandboxAgent.GatesBeforeWork | project-phase2.py:81-130 | a handler does its work only when all its gated arguments passed; a refused argument means no work and a failure |
| SandboxAgent.WhichArgumentsAreGated | project-phase2.py:81-130 | only clone_git_repo gates nothing; every other action gates its output; the four converters gate input and output; the SQL query gates db_path |
| SandboxAgent.UnknownActionDoesNothing | project-phase2.py:59-76 | an action that matches no branch does no work and raises nothing |
| SandboxAgent.DenialBecomes500 | project-phase2.py:56-79 | an example: a two-field scrape_website descriptor whose output is outside "/data" ends in 500 "Task execution error: 403: Access outside /data is not allowed." |
| SandboxAgent.ExecutionFailureBecomes500 | project-phase2.py:77-79 | whatever `execute_task` raises reaches the endpoint as a 500 with the detail it raised |
| SandboxAgent.GateRefusalBecomes500 | project-phase2.py:50-79 | for every action and every refused argument, the first refusal means no handler work and a 500 "Task execution error: " + str(refusal) |
| SandboxAgent.WorkErrorBecomes500 | project-phase2.py:56-79 | when every gate passes and the handler's work raises, the endpoint answers 500 "Task execution error: " + str(error) |
| SandboxAgent.EmptyTaskRefused | project-phase2.py:143-144 | an empty task is refused with 400 before the completion service is asked |
| SandboxAgent.RunTaskOutcomes | project-phase2.py:139-152 | the endpoint completes exactly when the task description is not empty, the completion succeeds and execution does not fail; every error is 400 or 500; it is 400 exactly when the description is empty; a failing completion is 500 "Internal server error: " with its message |
| WednesdayCounter.CountWednesdays | test_count_days.py:12-33 | a missing file raises FileNotFoundError before any line is read; otherwise the result is the count over the lines in order |
| WednesdayCounter.WednesdaysBounded | test_count_days.py:17-29 | the count never exceeds the number of lines that are not blank |
| WednesdayCounter.WednesdaysAppend | test_count_days.py:17-31 | the count over two blocks of lines is the sum of their counts |
| WednesdayCounter.SkippedLinesScoreZero | test_count_days.py:19-31 | a blank line, or one that fails to parse, adds nothing and does not stop the loop |
| WednesdayCounter.AllWednesdaysCounted | test_count_days.py:23-29 | when every line that is not blank parses to a Wednesday, every such line is counted |

## Left out

- `chat_completion`, `json.loads`, `json.load`, `json.dump`, `strptime`,
  dateutil's `parser.parse`, `datetime.weekday()`, `Path.glob`, `rglob`,
  `stat().st_mtime`, `Image.open`, OCR and the handler calls are function
  parameters. Their behaviour is not modelled.
- The prompts built in `determine_task` and `extract_credit_card_number` are
  folded into the completion parameter. Their wording is not modelled.
- The handlers that only run subprocesses or network calls are out of the
  model, because their behaviour is outside Python:
  - `install_uv_and_run_datagen`, `format_markdown_file` and
    `format_markdown`;
  - `fetch_api_data`, `scrape_website`, `clone_git_repo`, `compress_image`,
    `transcribe_audio` and `convert_md_to_html`.
- Data-crunching handlers are also out:
  - `find_most_similar_comments` uses floating-point embeddings;
  - `calculate_gold_ticket_sales` and `run_sql_query` are SQLite queries;
  - `filter_csv` evaluates arbitrary text with `eval`.
- What the phase-2 handlers do after their gates is one `work` parameter.
- `extract_email_sender` is a registered handler name, but its body is not
  modelled: it is a completion call and a write, with nothing to state.
- Concurrency is left out: parallel requests and races on output paths.
- The web layer is left out: FastAPI routing, query parsing, CORS, logging,
  API-key checks and `BackgroundTasks`.
- The module-level example call in `finalmain.py` is left out.
- Floating point is left out. JSON numbers are integers, and modification
  times are integers.
- Text encodings and decoding errors are left out. Strings are sequences of
  characters.
- `Path` normalisation is left out, both in messages and in file-system
  lookups. Paths appear in messages as the strings built by the code, for
  example "./x" and not "x". Files are looked up under those strings too:
  - the markdown index reads `docsDir + "/" + rel`, for example
    "./docs/by/x.md", where Python opens the joined path "docs/by/x.md";
  - the file-system map is keyed by these strings, so two spellings of one
    path are two entries.
- PyValues.Lookup: on a repeated key it returns the first member's value,
  where `json.loads` keeps the last. Decoded objects are taken to have
  distinct keys. The dicts the index builds by assignment do have distinct
  keys, by `MarkdownIndex.IndexIsWellFormed`.
- `mkdir(parents=True)` is left out. Writing to a path whose parent is
  missing succeeds in the model.
- Rename failures are left out, for example renaming onto a directory.
- `rglob` results that are directories are left out. They show up only as
  the read error that ends the walk.
- `str()` of an HTTPException is taken to be "<status>: <detail>", the
  Starlette form.
- CardNumber.IsDigit: only the ASCII digits 0-9 are digits. Python's
  `isdigit` also accepts other Unicode digits.
- ContactSorter.SortedContacts: among two or more contacts, every name that
  is not a string (or missing) is refused with a TypeError. Python raises
  only when the sort must order two unequal values whose types cannot be
  compared. Python accepts several cases the model refuses:
  - equal non-string names, as in two contacts whose last_name is null;
  - names decided at an earlier field, as in first names 1 and 2 under
    last names "A" and "B";
  - two numbers, which compare without error.

  Which pairs are compared depends on the order in which Timsort compares
  items, which the model does not follow. Python's message names the two
  types actually compared.
- CardNumber.CardNumberHandler: its contract is stated by
  `CardNumber.HandlerOutcomes` and `CardNumber.MissingImageChangesNothing`.
- SandboxAgent.ExecuteTask and SandboxAgent.RunTask: their contracts are
  stated by the `SandboxAgent` lemmas in the table.
- MarkdownIndex.Index: its contract is stated by `MarkdownIndex.BuildIndex`
  and the index lemmas.
