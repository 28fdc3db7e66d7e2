# logback pattern lexer, pattern layout and time-based rolling policy, in Dafny

This project models three pieces of logback-core and proves properties of them.

- **`TokenStream`** (`token_stream.dfy`). This is the lexer for layout patterns such as `%-5level %logger{36} - %msg%n`.
  - It is a five-state scanner: LITERAL, FORMAT_MODIFIER, KEYWORD, OPTION and RIGHT_PARENTHESIS.
  - It turns a pattern into a flat list of tokens.
  - Ending the pattern inside a format modifier or an option list is the "unexpected end of pattern" `ScanException`.
  - The class `TokenStream.TokenStream` keeps the source's mutable `state` and `pointer` fields and its `while (pointer < patternLength)` loop.
  - That loop is proved equal to a functional specification (`Step`, `Run`, `EndOfPattern`, `Scan`). Every lemma is proved about that specification.
- **`PatternLayoutBase`** (`pattern_layout.dfy`). This is the layout's orchestration:
  - the three-layer converter map, where defaults are overridden by the context registry, which is overridden by the instance map;
  - `start`, which refuses a null or empty pattern, reports a parse failure and otherwise installs the converter chain;
  - the render loop over the singly linked converter chain;
  - the presentation header.
  - A converter is what it writes for an event (`E -> string`).
- **`TimeBasedRollingPolicy`** (`rolling_policy.dfy`). This is the time-based rolling policy:
  - `start` installs the compression mode, the sub-policy and the archive remover;
  - `rollover` decides between renaming, renaming to a temporary file then compressing, and compressing in place;
  - a clean-up is scheduled when an archive remover exists;
  - `stop` waits for the pending jobs.
  - Renames, compressions, clean-ups and waits are appended to an action log.
  - The collaborators' answers and the clocks are parameters.

`wrappers.dfy` holds `Option`/`Result` and the status levels (`Info`, `Warn`, `Error`) recorded in place of the status manager's messages.

Collaborators whose code is not part of this model are fields of a datatype of function values:
- the option sub-tokenizer (`OptionTokenizer`), the lexer's escape utility and `Character.isJavaIdentifierStart`/`isJavaIdentifierPart` (`TokenStream.Collaborators`);
- the compression-mode and suffix functions of `RollingPolicyBase` and `Compressor` (`TimeBasedRolling.PatternSupport`);
- the triggering decision of the naming and triggering sub-policy (`TimeBasedRolling.NamingPolicy`).

The parser and compiler of `PatternLayoutBase.start` and its post-compile processor are instead parameters of `PatternLayout.PatternLayoutBase.Start`: `compile`, a function from the pattern and the effective converter map to the converter sequence or the parse failure, and `postCompile`, an optional function on that sequence.

The lexer's lemmas assume one thing about the option sub-tokenizer: it never moves the pointer backwards or past the end (`OptionScannerAdvances`).

## Model

| member | source | states |
|---|---|---|
| TokenStream.Flush | logback-core/src/main/java/ch/qos/logback/core/pattern/parser/TokenStream.java:254-259 | addValuedToken emits a token holding the buffer exactly when the buffer is non-empty, and always leaves the buffer empty; state and pointer are untouched |
| TokenStream.EndOfPattern | logback-core/src/main/java/ch/qos/logback/core/pattern/parser/TokenStream.java:110-124 | end of input fails, with "unexpected end of pattern", if and only if the state is FORMAT_MODIFIER or OPTION; the other states only append to the tokens already emitted |
| TokenStream.Step | logback-core/src/main/java/ch/qos/logback/core/pattern/parser/TokenStream.java:84-107 | one loop iteration always advances the pointer and never past the end of the pattern |
| TokenStream.Run | logback-core/src/main/java/ch/qos/logback/core/pattern/parser/TokenStream.java:84-107 | the loop, when no option list fails, consumes the whole pattern |
| TokenStream.StepKeepsWellFormed | logback-core/src/main/java/ch/qos/logback/core/pattern/parser/TokenStream.java:129-232 | every handler keeps the scanner invariant: no valued token is empty, a keyword being read is non-empty, and the buffer is empty in RIGHT_PARENTHESIS and OPTION states |
| TokenStream.RunKeepsWellFormed | logback-core/src/main/java/ch/qos/logback/core/pattern/parser/TokenStream.java:84-107 | the loop keeps the scanner invariant |
| TokenStream.TokenValuesNonEmpty | logback-core/src/main/java/ch/qos/logback/core/pattern/parser/TokenStream.java:254-259 | no LITERAL, FORMAT_MODIFIER, SIMPLE_KEYWORD or COMPOSITE_KEYWORD token produced by tokenize has an empty value |
| TokenStream.RightParenthesisEmitsOne | logback-core/src/main/java/ch/qos/logback/core/pattern/parser/TokenStream.java:129-145 | each character read in RIGHT_PARENTHESIS state, and the end of input there, emits exactly one RIGHT_PARENTHESIS token; `)` keeps the state, `{` goes to OPTION, anything else to LITERAL |
| TokenStream.RunAbsorbing | logback-core/src/main/java/ch/qos/logback/core/pattern/parser/TokenStream.java:152-200 | a run of characters that a state only appends (plain text in LITERAL, identifier parts in KEYWORD, others in FORMAT_MODIFIER) moves straight into the buffer, without emitting a token |
| TokenStream.PlainPatternIsOneLiteral | logback-core/src/main/java/ch/qos/logback/core/pattern/parser/TokenStream.java:170-195 | a non-empty pattern without `\`, `%` or `)` tokenizes to exactly one LITERAL token holding the whole pattern |
| TokenStream.TrailingEscapeDropped | logback-core/src/main/java/ch/qos/logback/core/pattern/parser/TokenStream.java:234-239 | plain text (no `\`, `%` or `)`) followed by a final `\` tokenizes without error to just the text's LITERAL: the trailing `\` is dropped |
| TokenStream.TrailingEscapeDroppedAnywhere | logback-core/src/main/java/ch/qos/logback/core/pattern/parser/TokenStream.java:234-239 | a `\` that is the last character of the pattern is dropped without error from any LITERAL, RIGHT_PARENTHESIS or KEYWORD scanner: the pending text is kept, a pending parenthesis is emitted, a keyword is closed, and the tokens are exactly those of the end of input |
| TokenStream.TrailingPercentFails | logback-core/src/main/java/ch/qos/logback/core/pattern/parser/TokenStream.java:176-183 | plain text (no `\`, `%` or `)`) followed by a final `%` leaves FORMAT_MODIFIER state open and fails with "unexpected end of pattern" |
| TokenStream.LiteralPercentFlushes | logback-core/src/main/java/ch/qos/logback/core/pattern/parser/TokenStream.java:176-183 | in LITERAL state, from any scanner, `%` emits the pending text as one LITERAL when it is non-empty, then PERCENT, and opens FORMAT_MODIFIER state with an empty buffer |
| TokenStream.ReadModifier | logback-core/src/main/java/ch/qos/logback/core/pattern/parser/TokenStream.java:165-167 | in FORMAT_MODIFIER state, modifier characters (no `(`, no identifier start) only move into the buffer |
| TokenStream.StartKeyword | logback-core/src/main/java/ch/qos/logback/core/pattern/parser/TokenStream.java:158-164 | in FORMAT_MODIFIER state, a keyword emits the buffered modifier (only when non-empty) and is left in the buffer in KEYWORD state |
| TokenStream.ReadModifiedKeyword | logback-core/src/main/java/ch/qos/logback/core/pattern/parser/TokenStream.java:152-168 | in FORMAT_MODIFIER state with nothing buffered, modifier + keyword emit FORMAT_MODIFIER only for a non-empty modifier and leave the keyword pending in KEYWORD state |
| TokenStream.ReadKeyword | logback-core/src/main/java/ch/qos/logback/core/pattern/parser/TokenStream.java:176-183 | from LITERAL state anywhere in the pattern, `%` + modifier + keyword flushes the pending text as a LITERAL (when there is any), then leaves PERCENT, the modifier token only when the modifier is non-empty, and the keyword pending in KEYWORD state |
| TokenStream.ModifiedKeyword | logback-core/src/main/java/ch/qos/logback/core/pattern/parser/TokenStream.java:176-183 | `%` + modifier + keyword tokenizes to PERCENT, then FORMAT_MODIFIER only for a non-empty modifier, then SIMPLE_KEYWORD; so `%d` gives exactly [PERCENT, SIMPLE_KEYWORD "d"] |
| TokenStream.TextThenModifiedKeyword | logback-core/src/main/java/ch/qos/logback/core/pattern/parser/TokenStream.java:176-183 | plain text followed by `%` + modifier + keyword, such as `ab%d`, tokenizes to LITERAL text, PERCENT, the modifier only when non-empty, then SIMPLE_KEYWORD |
| TokenStream.KeywordClosedBy | logback-core/src/main/java/ch/qos/logback/core/pattern/parser/TokenStream.java:197-232 | in KEYWORD state, from any scanner holding a keyword, a character that is not an identifier part closes it: `(` as COMPOSITE_KEYWORD; `{` as SIMPLE_KEYWORD and opens OPTION; `%` as SIMPLE_KEYWORD then PERCENT; `)` as SIMPLE_KEYWORD and enters RIGHT_PARENTHESIS; `\` as SIMPLE_KEYWORD then escapes the next character if any; anything else as SIMPLE_KEYWORD and starts literal text with it |
| TokenStream.BareComposite | logback-core/src/main/java/ch/qos/logback/core/pattern/parser/TokenStream.java:152-157 | in FORMAT_MODIFIER state, from any scanner, modifier text followed by `(` emits the whole modifier (if non-empty), then BARE_COMPOSITE_KEYWORD, and returns to LITERAL state with an empty buffer |
| TokenStream.DetokenizeAppend | logback-core/src/main/java/ch/qos/logback/core/pattern/parser/TokenStream.java:254-259 | supporting lemma: the text spelled by the tokens grows by the appended token's text |
| TokenStream.AppendKeepsLiteralsAndParentheses | logback-core/src/main/java/ch/qos/logback/core/pattern/parser/TokenStream.java:185-190 | supporting lemma: appending a non-empty literal without `)`, or a RIGHT_PARENTHESIS, keeps a list made of those two token kinds |
| TokenStream.LiteralParenthesisSpellsPrefix | logback-core/src/main/java/ch/qos/logback/core/pattern/parser/TokenStream.java:185-190 | in LITERAL state, `)` turns the pending text into a LITERAL token and leaves the parenthesis pending, keeping the spelling of the text read |
| TokenStream.LiteralPlainSpellsPrefix | logback-core/src/main/java/ch/qos/logback/core/pattern/parser/TokenStream.java:192-193 | in LITERAL state, a plain character joins the pending text, keeping the spelling of the text read |
| TokenStream.RightParenthesisSpellsPrefix | logback-core/src/main/java/ch/qos/logback/core/pattern/parser/TokenStream.java:129-145 | in RIGHT_PARENTHESIS state, the pending parenthesis becomes a token; `)` stays pending and a plain character starts literal text, keeping the spelling of the text read |
| TokenStream.StepSpellsPrefix | logback-core/src/main/java/ch/qos/logback/core/pattern/parser/TokenStream.java:84-107 | on text made of plain characters and `)`, one step keeps "tokens + pending parenthesis + buffer spell the pattern read so far" |
| TokenStream.RunSpellsPattern | logback-core/src/main/java/ch/qos/logback/core/pattern/parser/TokenStream.java:84-107 | on such text the loop never fails and keeps the tokens + buffer spelling the input read |
| TokenStream.EndSpellsPattern | logback-core/src/main/java/ch/qos/logback/core/pattern/parser/TokenStream.java:110-119 | at end of input on such text, the final tokens spell the whole pattern |
| TokenStream.ParenthesizedRoundTrip | logback-core/src/main/java/ch/qos/logback/core/pattern/parser/TokenStream.java:80-127 | tokenizing text made of plain characters and `)` succeeds, yields only LITERAL and RIGHT_PARENTHESIS tokens, and their concatenation gives the pattern back |
| TokenStream.TokenStream.constructor | logback-core/src/main/java/ch/qos/logback/core/pattern/parser/TokenStream.java:71-78 | a stream over a non-empty pattern starts in LITERAL state at position 0 |
| TokenStream.TokenStream.Create | logback-core/src/main/java/ch/qos/logback/core/pattern/parser/TokenStream.java:71-74 | construction is refused (IllegalArgumentException) exactly for a null or empty pattern, so every accepted stream has a pattern of length at least 1 |
| TokenStream.TokenStream.AddValuedToken | logback-core/src/main/java/ch/qos/logback/core/pattern/parser/TokenStream.java:254-259 | the method's new buffer and token list are those of `Flush` |
| TokenStream.TokenStream.Escape | logback-core/src/main/java/ch/qos/logback/core/pattern/parser/TokenStream.java:234-239 | the pointer and buffer after escape are those of `EscapeNext`: the next character is consumed and translated if there is one |
| TokenStream.TokenStream.HandleLiteralState | logback-core/src/main/java/ch/qos/logback/core/pattern/parser/TokenStream.java:170-195 | the handler's new state, pointer, buffer and tokens are those of `LiteralStep` |
| TokenStream.TokenStream.HandleFormatModifierState | logback-core/src/main/java/ch/qos/logback/core/pattern/parser/TokenStream.java:152-168 | the handler's result is `FormatModifierStep` |
| TokenStream.TokenStream.HandleKeywordState | logback-core/src/main/java/ch/qos/logback/core/pattern/parser/TokenStream.java:197-232 | the handler's result is `KeywordStep` |
| TokenStream.TokenStream.HandleRightParenthesisState | logback-core/src/main/java/ch/qos/logback/core/pattern/parser/TokenStream.java:129-145 | the handler's result is `RightParenthesisStep` |
| TokenStream.TokenStream.ProcessOption | logback-core/src/main/java/ch/qos/logback/core/pattern/parser/TokenStream.java:147-150 | the option sub-tokenizer's outcome: on failure the same ScanException, on success one OPTION token and the scanner back in LITERAL state |
| TokenStream.TokenStream.Tokenize | logback-core/src/main/java/ch/qos/logback/core/pattern/parser/TokenStream.java:80-127 | the imperative loop returns exactly `Scan` of the stream's state, so every lemma above holds of it |
| PatternLayout.RenderAppend | logback-core/src/main/java/ch/qos/logback/core/pattern/PatternLayoutBase.java:84-88 | rendering a chain extended by further converters (as a post-compile processor does) writes the original output followed by the new converters' output |
| PatternLayout.MergeLayers | logback-core/src/main/java/ch/qos/logback/core/pattern/PatternLayoutBase.java:48-67 | the effective map's keys are the union of the three layers' keys, a null layer contributing none; a key maps to its instance value, else its context-registry value, else its default value |
| PatternLayout.LookupDetermines | logback-core/src/main/java/ch/qos/logback/core/pattern/PatternLayoutBase.java:48-67 | supporting lemma: two maps that answer every lookup alike are the same map, so the effective map is determined by the priority rule |
| PatternLayout.LinkChain | logback-core/src/main/java/ch/qos/logback/core/pattern/PatternLayoutBase.java:84 | the compiled converters are linked, in order, into a fresh well-formed chain, and no converters give a null head |
| PatternLayout.Converter.constructor | logback-core/src/main/java/ch/qos/logback/core/pattern/PatternLayoutBase.java:118-121 | a converter node followed by a chain writes its own output then the chain's |
| PatternLayout.PatternLayoutBase.constructor | logback-core/src/main/java/ch/qos/logback/core/pattern/PatternLayoutBase.java:32-38 | a new layout is unstarted, with no chain, no pattern and an empty instance map |
| PatternLayout.PatternLayoutBase.GetEffectiveConverterMap | logback-core/src/main/java/ch/qos/logback/core/pattern/PatternLayoutBase.java:48-67 | the map built by successive putAll calls has the union of the layers' keys and the instance, registry, default priority |
| PatternLayout.PatternLayoutBase.Start | logback-core/src/main/java/ch/qos/logback/core/pattern/PatternLayoutBase.java:70-98 | a null or empty pattern records an error and changes neither `head` nor the started flag; a parse failure records an error and the layout stays unstarted; otherwise the chain is the compiled converters of the pattern against the effective map, post-processed when a processor is set, and the layout is started |
| PatternLayout.PatternLayoutBase.Install | logback-core/src/main/java/ch/qos/logback/core/pattern/PatternLayoutBase.java:84-93 | the successful end of start: the chain becomes the given converters and the layout is started, nothing else changes |
| PatternLayout.PatternLayoutBase.WriteLoopOnConverters | logback-core/src/main/java/ch/qos/logback/core/pattern/PatternLayoutBase.java:114-124 | the loop returns the concatenation, in chain order, of every converter's output for the event; a null head gives the empty string |
| PatternLayout.PatternLayoutBase.GetPresentationHeader | logback-core/src/main/java/ch/qos/logback/core/pattern/PatternLayoutBase.java:142-160 | with outputPatternAsHeader the header starts with the prefix and, the prefix being empty, is exactly the pattern; otherwise it is LayoutBase's header |
| PatternLayout.PatternLayoutBase.PresentationHeaderPrefix | logback-core/src/main/java/ch/qos/logback/core/pattern/PatternLayoutBase.java:142-144 | the header prefix of this class is the empty string |
| PatternLayout.PatternLayoutBase.SetPattern | logback-core/src/main/java/ch/qos/logback/core/pattern/PatternLayoutBase.java:130-132 | sets the pattern |
| PatternLayout.PatternLayoutBase.SetOutputPatternAsHeader | logback-core/src/main/java/ch/qos/logback/core/pattern/PatternLayoutBase.java:150-152 | sets the header flag |
| TimeBasedRolling.Slashify | logback-core/src/main/java/ch/qos/logback/core/rolling/TimeBasedRollingPolicy.java:151 | slashify keeps the length, replaces each backslash by a slash and leaves every other character |
| TimeBasedRolling.LastIndexOf | logback-core/src/main/java/ch/qos/logback/core/rolling/TimeBasedRollingPolicy.java:152 | the result is -1 exactly when the character is absent, and otherwise its last position |
| TimeBasedRolling.AfterLastSlash | logback-core/src/main/java/ch/qos/logback/core/rolling/TimeBasedRollingPolicy.java:170 | afterLastSlash is a suffix of the name without any slash: the whole name when it has no slash, and otherwise the part right after a slash |
| TimeBasedRolling.AfterLastSeparator | logback-core/src/main/java/ch/qos/logback/core/rolling/TimeBasedRollingPolicy.java:150-153 | what follows the last slash of the slashified name is the suffix of the name itself after its last `/` or `\`, or the whole name when it has neither |
| TimeBasedRolling.ZipEntryPattern | logback-core/src/main/java/ch/qos/logback/core/rolling/TimeBasedRollingPolicy.java:150-153 | the zip entry-name pattern is the last path element of the pattern: a suffix of the pattern containing neither separator, the whole pattern when it has no separator, and otherwise preceded by a `/` or `\` |
| TimeBasedRolling.NatToDecimal | logback-core/src/main/java/ch/qos/logback/core/rolling/TimeBasedRollingPolicy.java:202 | the decimal form of a non-negative clock reading is a non-empty string of digits |
| TimeBasedRolling.NatToDecimalValue | logback-core/src/main/java/ch/qos/logback/core/rolling/TimeBasedRollingPolicy.java:202 | the decimal form of a non-negative reading reads back as the number it was made from |
| TimeBasedRolling.LongToDecimal | logback-core/src/main/java/ch/qos/logback/core/rolling/TimeBasedRollingPolicy.java:202 | a negative reading is written with a leading minus sign |
| TimeBasedRolling.NatToDecimalInjective | logback-core/src/main/java/ch/qos/logback/core/rolling/TimeBasedRollingPolicy.java:202 | distinct non-negative readings have distinct decimal forms |
| TimeBasedRolling.SignedDecimalInjective | logback-core/src/main/java/ch/qos/logback/core/rolling/TimeBasedRollingPolicy.java:202 | distinct negative readings have distinct written forms |
| TimeBasedRolling.LongToDecimalSign | logback-core/src/main/java/ch/qos/logback/core/rolling/TimeBasedRollingPolicy.java:202 | the written form of a reading starts with `-` exactly when the reading is negative |
| TimeBasedRolling.LongToDecimalInjective | logback-core/src/main/java/ch/qos/logback/core/rolling/TimeBasedRollingPolicy.java:202 | distinct clock readings are written differently |
| TimeBasedRolling.TempName | logback-core/src/main/java/ch/qos/logback/core/rolling/TimeBasedRollingPolicy.java:202 | the temporary name extends the archive's name, ends in ".tmp" and is never the archive's name itself |
| TimeBasedRolling.TempNameInjective | logback-core/src/main/java/ch/qos/logback/core/rolling/TimeBasedRollingPolicy.java:202 | for one archive name, distinct clock readings give distinct temporary names |
| TimeBasedRolling.FileOps | logback-core/src/main/java/ch/qos/logback/core/rolling/TimeBasedRollingPolicy.java:163-198 | the renames and compressions of a log, in order |
| TimeBasedRolling.FileOpsAppend | logback-core/src/main/java/ch/qos/logback/core/rolling/TimeBasedRollingPolicy.java:190-197 | supporting lemma: the file operations of two logs in sequence are those of the first followed by those of the second |
| TimeBasedRolling.FileOpsOfFileActions | logback-core/src/main/java/ch/qos/logback/core/rolling/TimeBasedRollingPolicy.java:172-188 | a log made only of renames and compressions is its own list of file operations |
| TimeBasedRolling.RenameRawPlanCompressesRenamedFile | logback-core/src/main/java/ch/qos/logback/core/rolling/TimeBasedRollingPolicy.java:200-205 | the raw file is renamed to a name different from the archive's, the compressed file is exactly that renamed file, and a failed rename stops before any compression |
| TimeBasedRolling.FilePlanCases | logback-core/src/main/java/ch/qos/logback/core/rolling/TimeBasedRollingPolicy.java:163-188 | with compression NONE, one rename raw to elapsed name when a raw file is set, else nothing; with compression and no raw file, the elapsed file is compressed onto itself under entry name afterLastSlash(elapsed); with a raw file, rename raw to elapsed+nanotime+".tmp" then compress that file onto the elapsed name; a RolloverFailure happens exactly when the rename of the raw file throws one; entry names never contain a slash |
| TimeBasedRolling.RolloverPlanCleansLast | logback-core/src/main/java/ch/qos/logback/core/rolling/TimeBasedRollingPolicy.java:163-198 | a rollover does the file plan's operations in order, and schedules a clean-up at the current time, as its last action, exactly when an archive remover exists and no RolloverFailure was thrown |
| TimeBasedRolling.TimeBasedRollingPolicy.constructor | logback-core/src/main/java/ch/qos/logback/core/rolling/TimeBasedRollingPolicy.java:48-63 | a new policy is unstarted, with unbounded history and size cap, no clean-on-start, no remover and no pending job |
| TimeBasedRolling.TimeBasedRollingPolicy.Start | logback-core/src/main/java/ch/qos/logback/core/rolling/TimeBasedRollingPolicy.java:65-123 | without a file-name pattern: two warnings and an IllegalStateException, and no field other than the statuses changes; otherwise the pattern and its mode are installed and a default sub-policy is created when none was set; if the sub-policy does not start, a warning and the policy is neither started nor given a remover; otherwise a remover carrying maxHistory and totalSizeCap exists exactly when maxHistory is bounded, a clean-up is scheduled exactly when also cleanHistoryOnStart, a bounded size cap without maxHistory only adds a warning, and the policy is started |
| TimeBasedRolling.TimeBasedRollingPolicy.InstallPatterns | logback-core/src/main/java/ch/qos/logback/core/rolling/TimeBasedRollingPolicy.java:70-90 | the pattern, its compression mode and the active-file pattern without suffix are installed with one info entry; only zip compression sets the entry-name pattern |
| TimeBasedRolling.TimeBasedRollingPolicy.InstallArchiveRemover | logback-core/src/main/java/ch/qos/logback/core/rolling/TimeBasedRollingPolicy.java:109-120 | a remover with both limits exactly when maxHistory is bounded; a clean-up at start exactly when also cleanHistoryOnStart; otherwise a bounded size cap only produces a warning |
| TimeBasedRolling.TimeBasedRollingPolicy.IsUnboundedTotalSizeCap | logback-core/src/main/java/ch/qos/logback/core/rolling/TimeBasedRollingPolicy.java:125-127 | true exactly when the size cap is the "no limit" value 0 |
| TimeBasedRolling.TimeBasedRollingPolicy.Stop | logback-core/src/main/java/ch/qos/logback/core/rolling/TimeBasedRollingPolicy.java:130-136 | nothing happens when not started; otherwise it waits for the compression job, then the clean-up job, records an error (and never throws) for each wait that did not complete, and stops |
| TimeBasedRolling.TimeBasedRollingPolicy.WaitForAsynchronousJobToStop | logback-core/src/main/java/ch/qos/logback/core/rolling/TimeBasedRollingPolicy.java:138-148 | a pending job is waited for, and a timeout or other failure becomes an error entry; no job, nothing happens |
| TimeBasedRolling.TimeBasedRollingPolicy.Rollover | logback-core/src/main/java/ch/qos/logback/core/rolling/TimeBasedRollingPolicy.java:163-198 | the actions appended, the futures stored and the RolloverFailure are exactly those of `RolloverPlan` for the policy's mode, raw file and remover |
| TimeBasedRolling.TimeBasedRollingPolicy.RollElapsedFile | logback-core/src/main/java/ch/qos/logback/core/rolling/TimeBasedRollingPolicy.java:168-188 | the file half of rollover appends exactly `FilePlan`'s actions and stores its compression future |
| TimeBasedRolling.TimeBasedRollingPolicy.RenameRawAndAsyncCompress | logback-core/src/main/java/ch/qos/logback/core/rolling/TimeBasedRollingPolicy.java:200-205 | appends exactly `RenameRawPlan`'s actions and returns its compression job, or the RolloverFailure of a failed rename |
| TimeBasedRolling.TimeBasedRollingPolicy.ActiveFileName | logback-core/src/main/java/ch/qos/logback/core/rolling/TimeBasedRollingPolicy.java:227-234 | the raw file property when set, otherwise the sub-policy's current-period name without compression suffix |
| TimeBasedRolling.TimeBasedRollingPolicy.IsTriggeringEvent | logback-core/src/main/java/ch/qos/logback/core/rolling/TimeBasedRollingPolicy.java:236-239 | the decision is the installed sub-policy's |
| TimeBasedRolling.TimeBasedRollingPolicy.SetMaxHistory | logback-core/src/main/java/ch/qos/logback/core/rolling/TimeBasedRollingPolicy.java:256-258 | sets maxHistory and keeps the policy's invariant |
| TimeBasedRolling.TimeBasedRollingPolicy.SetCleanHistoryOnStart | logback-core/src/main/java/ch/qos/logback/core/rolling/TimeBasedRollingPolicy.java:269-271 | sets cleanHistoryOnStart |
| TimeBasedRolling.TimeBasedRollingPolicy.SetTotalSizeCap | logback-core/src/main/java/ch/qos/logback/core/rolling/TimeBasedRollingPolicy.java:278-281 | records an info entry and sets the size cap |
| TimeBasedRolling.TimeBasedRollingPolicy.SetTimeBasedFileNamingAndTriggeringPolicy | logback-core/src/main/java/ch/qos/logback/core/rolling/TimeBasedRollingPolicy.java:155-157 | installs the given sub-policy |

The class invariant `TimeBasedRollingPolicy.Valid` is kept by every operation of the policy:
- a started policy has its patterns and its sub-policy;
- a remover exists only for a bounded history;
- the zip entry-name pattern contains no slash;
- the stored futures are a compression job and a clean-up job.

## Left out

- `OptionTokenizer` is not part of this model. The OPTION state hands the pattern, the position and the current character to an opaque collaborator. That collaborator reports the option list and the new position, or a `ScanException`. The lexer's proofs assume only that it does not move the pointer backwards or past the end.
- The escape utilities are an opaque function from the escape characters and the next character to the text appended. The `IllegalArgumentException` that `RegularEscapeUtil` raises for some characters is not modelled.
- The `optionEscapeUtil` field (a `RestrictedEscapeUtil`) and `optionEscape`, which uses it, are not modelled. Only the option sub-tokenizer uses them. The escape utility of the constructors (by default a `RegularEscapeUtil`) is the lexer's own escape, `Collaborators.escape`.
- `Character.isJavaIdentifierStart`/`isJavaIdentifierPart` are opaque predicates. No Unicode classification is modelled.
- A Java `char` is a UTF-16 code unit, and a Dafny `char` is a whole Unicode scalar value. For a pattern holding a character outside the Basic Multilingual Plane, the model's length and pointer positions differ from the source's. The identifier predicates also see the whole character rather than each surrogate half. No property proved here depends on this.
- `Parser.parse`/`Parser.compile`, converter contexts and `ConverterUtil.startConverters` are not modelled. `PatternLayoutBase.Start` takes a function from the pattern and the effective converter map to the compiled converter sequence or the `ScanException`, and an optional post-compile function on that sequence.
- A converter is reduced to what it writes for an event. Date, level and other rendering semantics are not modelled.
- Subclasses of `PatternLayoutBase` may override the header prefix. Only this class's empty prefix is modelled.
- The status manager is reduced to the level of each recorded entry. Message texts are not modelled.
- A null context when `start` reports a parse failure throws a `NullPointerException` in the source. That case is not modelled.
- File renames, compression, clean-up and the executor are not performed. Each is a recorded action. Whether `RenameUtil.rename` throws a `RolloverFailure` is a parameter (`renameSucceeds` false means it throws). `RenameUtil` is not part of this model. In logback it throws for a missing source or a failed copy, while a `renameTo` that returns false only adds warnings.
- `RenameUtil`'s own checks (same source and target, missing source) belong to that collaborator and are not modelled.
- `Future.get` and its timeout are not modelled. The outcome of each wait is a parameter. The futures are the jobs they stand for.
- `System.nanoTime()` and the sub-policy's clock are parameters. A clock reading is an unbounded integer, not a 64-bit long.
- `FileNamePattern` and its date arithmetic are not part of this model. A pattern is kept as its string.
- `RollingPolicyBase.determineCompressionMode` and `Compressor.computeFileNameStrWithoutCompSuffix` are not part of this model. They are opaque functions in `PatternSupport`. So is the info entry that `determineCompressionMode` records.
- `FileFilterUtil.slashify`/`afterLastSlash` are not part of this model either. They are defined here by their documented behaviour: backslash to slash, and what follows the last slash, or the whole name when there is none.
- The sub-policy's `start`, `getElapsedPeriodsFileName`, `getCurrentPeriodsFileNameWithoutCompressionSuffix` and `getCurrentTime` are parameters of the calls that use them. Its triggering decision is a function in `NamingPolicy`.
- TimeBasedRolling.TimeBasedRollingPolicy.InstallArchiveRemover: the sub-policy's `getArchiveRemover` is not consulted. The remover is built from `maxHistory` and `totalSizeCap` alone. So the `NullPointerException` that a sub-policy returning no remover would raise is not modelled.
- TimeBasedRolling.TimeBasedRollingPolicy.Rollover: requires a sub-policy. With none set, the source fails with a `NullPointerException`, which is not modelled.
- TimeBasedRolling.TimeBasedRollingPolicy.ActiveFileName: requires a raw file property or a sub-policy, for the same reason.
- TimeBasedRolling.TimeBasedRollingPolicy.IsTriggeringEvent: requires a sub-policy, for the same reason.
- `RollingPolicyBase.start`/`stop` are not part of this model. They are taken to set and clear the started flag.
- Getters (`getMaxHistory`, `isCleanHistoryOnStart`, `getPattern`, and so on) are plain field reads and are not modelled. So is `toString`.
