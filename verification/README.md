# isoltest: the interactive syntax-test harness, modelled in Dafny

`isoltest` walks the directory `<testpath>/libsolidity/syntaxTests`. It runs every file it finds as a syntax test through the test engine. When a test it could load does not pass, it asks the operator what to do; a test it cannot load is reported and passed over. `s` skips the test and `q` quits. `u` rewrites the file's expectations from the errors just observed and runs the file again. `e` opens the file in an editor and runs it again. After the walk, the program exits with 0 exactly when every test counted as run was also counted as passed.

The model is functional. The directory is an immutable tree (`Harness.Node`) whose children come in the order the file system lists them. The foreign parts of the program are answer sequences, consumed in the order the program asks for them (`Harness.Env`):

- the engine gives one answer per attempt at a file: unreadable, passed, failed, or threw;
- the operator's keyboard gives one character per read;
- the editor gives one exit status per launch.

Each operation returns the continue/abort answer of the program, the two counters, the files reached so far in order, the answers left, and the effects on disk and processes (`Harness.Step`). When the given answers run out, the model answers `OutOfInput`. This answer exists only in the model: the real engine and editor always answer, and the real keyboard is read for as long as the operator types. Keystroke consumption is also the termination measure for the re-run recursion.

Modules:
- `Expectations` (expectations.dfy): the text written by the update command, and a reader that recovers the error lines from it.
- `Harness` (harness.dfy): the data model, the list of test files below a tree, and answer counting.
- `CaseRunner` (case_runner.dfy): `process` and `handleResponse`, with the keystroke lemmas.
- `Traversal` (traversal.dfy): `processPath`, with the walk lemmas.
- `Tool` (tool.dfy): the decisions in `main` and the exit status.
- `Scenarios` (scenarios.dfy): whole runs on small trees.

## Model

| member | source | states |
|---|---|---|
| CaseRunner.Process | test/tools/isoltest.cpp:78-134 | One run of a file, however many re-runs it leads to, leaves the run counter and the visited list alone. It adds at most one success, and only when it answers continue. Every effect concerns that file. Each completed run consumes an engine answer. |
| CaseRunner.HandleResponse | test/tools/isoltest.cpp:136-183 | The operator loop adds at most one success, and only on continue. It never touches the run counter. Any answer other than `OutOfInput` (the model was not given a key, an engine answer or an editor status it needs) consumes at least one key, and the numbers of keys and engine answers left never grow. Its effects concern only the failing file. |
| CaseRunner.UnreadableContinues | test/tools/isoltest.cpp:87-95 | A test that cannot be read answers continue. It adds no success and reads no key. |
| CaseRunner.PassCounts | test/tools/isoltest.cpp:107-113 | A passing test adds exactly one success, answers continue, and reads no key. |
| CaseRunner.FailureAsksOperator | test/tools/isoltest.cpp:114-133 | A failure or a parser error goes to the operator loop with nothing counted. The parser-error flag is set exactly when the engine threw. |
| CaseRunner.SkipContinues | test/tools/isoltest.cpp:148-150 | `s` answers continue and changes nothing but the key read. |
| CaseRunner.QuitAborts | test/tools/isoltest.cpp:176-178 | `q` answers abort at once, with no further effect. |
| CaseRunner.IgnoredKeysSkipped | test/tools/isoltest.cpp:144-181 | Any run of keys the loop does not act on is read and dropped. These are `u` after a parser error and every key other than `s`, `u`, `e`, `q`. The answer is the one the loop gives on the keys after them. |
| CaseRunner.UpdateRewritesAndReruns | test/tools/isoltest.cpp:151-168 | `u` after a structured failure writes source, separator and observed errors to the file. Its answer is exactly the result of a fresh run of the same file. |
| CaseRunner.EditorCommand | test/tools/isoltest.cpp:172 | The editor command line is the configured editor, one space, and the file's path, which can be cut back out after the editor's length. |
| CaseRunner.EditReruns | test/tools/isoltest.cpp:170-175 | `e` launches `<editor> <path>`, adding a warning when the exit status is non-zero. Its answer is exactly the result of a fresh run of the same file. |
| CaseRunner.ProcessIgnoresEditorStatus | test/tools/isoltest.cpp:170-175 | Changing the editor's exit statuses changes nothing but the warnings. The answer, counters, visited files, answers consumed and all other effects stay the same. |
| CaseRunner.HandleIgnoresEditorStatus | test/tools/isoltest.cpp:136-183 | The same independence from the editor's exit status, for the operator loop. |
| CaseRunner.ProcessWhenSkipping | test/tools/isoltest.cpp:97-150 | With an operator who skips, a file adds a success exactly when the engine passes it. It reads a key exactly when the file fails. |
| Traversal.ProcessPath | test/tools/isoltest.cpp:186-211 | The files reached are the first ones of the subtree in order, all below the entry's path, and each counts as run exactly once. If the answer is continue, all of them were reached. Successes never decrease and never outgrow runs, and fall strictly behind on any other answer. Effects stay inside the subtree. |
| Traversal.ProcessChildren | test/tools/isoltest.cpp:194-202 | A directory's entries are processed in order: the files reached are the first ones below the directory, all of them on continue, with the same counter bounds as ProcessPath. |
| Traversal.RunFilesConcat | test/tools/isoltest.cpp:198-201 | Running two lists of test files one after the other, stopping at the first answer other than continue, is the same as running their concatenation. |
| Traversal.WalkIsFlat | test/tools/isoltest.cpp:186-211 | The recursive walk equals the flat run over the subtree's test files in visiting order: each is counted as run and processed, and the first answer other than continue ends the walk at every level and is passed on unchanged, so no later file is reached. |
| Traversal.ChildrenAreFlat | test/tools/isoltest.cpp:194-202 | The same equality for the entries of one directory: after the first entry that does not answer continue, no later sibling is reached. |
| Traversal.WalkWhenSkipping | test/tools/isoltest.cpp:186-211 | With an operator who skips every failure, every file below is reached in order and counted as run. The passes counted are exactly the engine's passes, one key is read per failure, and nothing is written. |
| Traversal.ChildrenWhenSkipping | test/tools/isoltest.cpp:194-202 | The same as WalkWhenSkipping, for the entries of one directory. |
| Traversal.AllPassWalk | test/tools/isoltest.cpp:186-211 | When the engine passes every file, the walk answers continue and reaches every file. Successes and runs both grow by the number of files. No key is read and nothing is written. |
| Traversal.WalkIgnoresEditorStatus | test/tools/isoltest.cpp:186-211 | The editor's exit statuses never change where the walk goes or what it counts. |
| Traversal.ChildrenIgnoreEditorStatus | test/tools/isoltest.cpp:194-202 | The same independence from the editor's exit status, for a directory's entries. |
| Tool.Walk | test/tools/isoltest.cpp:258-262 | The walk starts from zero counters at `syntaxTests` below `<testpath>/libsolidity`. It reaches the first test files of the tree in order, all of them on continue, counts each as run, and never counts more successes than runs. Every effect is below the walked directory. |
| Tool.ExitCode | test/tools/isoltest.cpp:262-272 | The exit status is 0 or 1, and it is 0 exactly when successes equal runs. |
| Tool.RunTool | test/tools/isoltest.cpp:213-278 | `--help` exits with 0. An argument error exits with 1. A test path that is not an existing directory exits with 1. In all three cases nothing is run. Whatever happens, successes never exceed runs at the end. |
| Tool.ExitZeroMeansAllPassed | test/tools/isoltest.cpp:258-273 | An exit status of 0 after a walk means the walk was not cut short. Every file of the tree was reached once, and every one counted as passed. |
| Tool.QuitExitsOne | test/tools/isoltest.cpp:262-272 | A walk ended by `q` still reaches the summary. It always exits with 1, because the walk's own answer is ignored. |
| Tool.AllPassExitsZero | test/tools/isoltest.cpp:258-273 | When the engine passes every file, the program exits with 0 without reading a key or writing anything. |
| Tool.SkippingExitCode | test/tools/isoltest.cpp:258-273 | With an operator who skips every failure, every file is run and successes are the engine's passes. The exit status is 1 exactly when some file did not pass. |
| Tool.ExitIgnoresEditorStatus | test/tools/isoltest.cpp:170-175 | The editor's exit statuses never change the program's exit status or its counters. |
| Expectations.UpdatedText | test/tools/isoltest.cpp:157-166 | The updated file starts with the source verbatim, followed by the line `// ----`. Nothing follows when there are no errors. |
| Expectations.BlockRoundTrip | test/tools/isoltest.cpp:160-165 | The error block written by an update reads back as exactly the errors written, in order. |
| Expectations.UpdatedTextRoundTrip | test/tools/isoltest.cpp:156-166 | The updated file splits back into the original source, the separator and the observed errors. |
| Scenarios.UpdateThenPass | test/tools/isoltest.cpp:151-168 | One run on a small tree. `a.test` passes. `b/c.test` fails, is updated, and passes on the re-run. Two runs and two successes, one write, exit status 0. |
| Scenarios.ParserErrorSkipped | test/tools/isoltest.cpp:136-153 | After a parser error, `u` is read past and `s` skips. The file is untouched and the exit status is 1. |
| Scenarios.QuitStopsWalk | test/tools/isoltest.cpp:176-208 | A quit on the first of two failing files leaves the second unvisited, its engine answer unread and the key after the quit unread, and the exit status is 1. |
| Scenarios.EditorFailureOnlyWarns | test/tools/isoltest.cpp:170-175 | A failing editor adds only a warning, and the re-run passes with exit status 0. |

## Notes on the code

- The traversal order is the order in which `fs::directory_iterator` lists a directory. The code does not sort entries, so it makes no promise that two runs visit files in the same order. The model takes each directory's children as given and claims nothing about determinism.
- Updating and re-running is not guaranteed to pass: the re-run is a fresh engine answer, which the model leaves free.
- The walk starts at `<testpath>/libsolidity/syntaxTests`, but only `<testpath>` is checked for being a directory. If `syntaxTests` is missing or is a plain file, the code treats it as one test file. `Tool.RunTool` follows the code here.
- `--help` exits with 0 before the test path is checked.
- The update (isoltest.cpp:157-168) re-runs the test while its `ofstream` is still open. Only the separator line is ended with `endl` there, so whether the error lines have reached the disk when the engine reads the file back depends on how `printErrorList` flushes. A nested `u` opens a second truncating stream on the same file. The model records the write as a `Wrote` effect and leaves the next engine answer free, so no proof relies on the write having finished; the `Wrote` effect should not be read as a write completed before the re-run.

## Left out

- Console output, colours and the summary line (`FormattedPrinter`, `format`, `printContract`): they are display only. The `--no-color` switch only changes colours, so it is not part of the configuration. The update writes unformatted errors whether it is set or not.
- The test engine (`SyntaxTest` construction, `run`, `source`, `errorList`, `printErrorList`) is foreign. Its answers are the `engine` sequence. Each error arrives already rendered as one line, and the model adds only the `// ` prefix and the line break.
- File input and output are modelled as effect records, not as file contents: `ofstream` truncating writes, reading files back, and the possibility that opening a file for writing fails, which the code ignores. The file is re-read by the engine on the re-run, so the next engine answer stands for what the engine reads.
- The operator's keyboard (`readStandardInputChar`) is modelled as the `keys` sequence. The editor subprocess (`system`) is modelled as a `RanEditor` effect plus the `editorExits` sequence.
- Directory enumeration (`fs::is_directory`, `fs::directory_iterator`) is replaced by the given tree.
- Argument parsing with boost `program_options` and the `EDITOR` environment variable are replaced by the `Tool.Invocation` value and `Harness.Config`.
- File-system failures and cycles: `fs::exists` (258), `fs::is_directory` (194) and `fs::directory_iterator` (196-199) can throw `filesystem_error`. Nothing catches it, since `main` catches only `po::error` (252), so the program ends abnormally with a status that is neither 0 nor 1. The model's tree cannot fail to be read. A directory symlink cycle makes the real walk recurse without bound, which a finite `Node` cannot express.
- Counter width: the `int` counters are unbounded naturals, so 32-bit overflow is not modelled. It would need more than two billion test files.
