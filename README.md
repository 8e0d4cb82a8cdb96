# A verified model of the preprocessor job, the environment helpers and the Ollama chat clients

This project models four Python files in Dafny and proves properties about them:

- **`data-ingestion/preprocessor.py`** (module `PreprocessorJob`, file `preprocessor.dfy`).
  This is the job that fetches a build of the preprocessing tool from the object store, stages and extracts it, then runs the tool's entry script on an application's binaries.
  While the script runs, the bundled Java runtime is first on `PATH`.
  - The job itself is the class `Preprocessor`. Its mutable fields are the store name and the job status (`Ready`, `Failed`, `Finished`).
  - The process state it acts on is the class `Host`: the environment, the working directory, the regular files with their bytes, and the directories.
  - The object store, the shell, the tool run and the helpers of the unseen worker package are oracles, so their answers are parameters:
    - `StoreReply` is what `s3_bucket` stored;
    - `unpacked` and `unpackedDirs` are the files and directories the extracting command wrote;
    - the jar path found by `find_file`, and the Java path found by `find_java`;
    - `ToolRun` is one of three things: the exit code and the files afterwards; an exception before the tool ran; or a zero exit followed by an exception, raised either before or after the payload is written back;
    - `verbose` says whether the logger is enabled for DEBUG;
    - the value of `PP_OUTPUT_TARBALL`;
    - the string-tuple `hash`.
- **`tryit/x.py`** (module `EnvVars`, file `env_vars.dfy`).
  - `is_truthy` is modelled over an ASCII model of `int()`.
  - Key normalisation, `fetch_env_var` and `boolean_env_var` work over a `map<string, string>`.
  - `set_env_var` is a method of the class `Environ`, which holds the environment.
- **`foo.py`** (module `OllamaChat`, file `ollama_chat.dfy`).
  - The chat client answers each placeholder in turn with the model's reply to everything before it. The work happens in place on a copy of the caller's array.
  - `print_streamed_response` stops at an error or a `done` record.
  - `code_snippet` slices and joins the lines it is given.
- **`mine/foo2.py`** (module `OllamaGroups`, file `ollama_groups.dfy`).
  - The client pulls its model first, and is created only when the pull reports success.
  - It splits the conversation into placeholder-free groups and posts each group separately.
  - Its `print_streamed_response` keeps the content of the `done` record.

The shared pieces live in `ollama_api.dfy` (module `OllamaApi`):
- messages and the placeholder sentinel;
- a streamed reply, which is the sequence of its already-decoded lines (`Blank`, or a `Record` with the keys the scripts read);
- accumulation of streamed text.

The server is a function from the request posted to the reply lines.

`text.dfy` (module `Text`) models the pieces of Python's `str` the sources use, restricted to ASCII: `isspace`, `lower`, `upper`, `endswith`, `in`, `replace`, `strip`, `split()` and `join`.
`options.dfy` holds the `Option` type.

Some behaviour of the source is kept exactly as written. In particular:
- After a failing tool run, `submit_preflight` leaves the working directory at the tool root. The `return` at line 214 skips line 233.
- Extraction is chosen by the bare ending `"zip"`, with no dot.
- The `"1"` alternative of `is_truthy` can never be reached (`OneIsAnInteger`).
- After the change of directory at line 169, `get_preflight_paths` resolves the tool root, the binary root and the Java path from inside the tool root. A relative tool root therefore fails line 140 (`RelativeToolRootRefused`).

## Model

| member | source | states |
|---|---|---|
| `EnvVars.IsTruthy` | tryit/x.py:22-25 | For a string that `int()` accepts, the result is whether the integer is non-zero. For any other string, it is whether its lower-case form is "true" or "yes". `int()` skips only tab, line feed, vertical tab, form feed, carriage return and space around the number, and refuses a numeral of more than 4300 digits. |
| `EnvVars.SeparatorIsNoIntSpace` | tryit/x.py:22-25 | The separator control 28 is whitespace to `isspace` but not to `int()`, so `"\x1c1"` is not an integer and is not truthy. |
| `EnvVars.OneIsAnInteger` | tryit/x.py:25 | The only string whose lower-case form is "1" parses as the integer 1, so the "1" alternative is dead. |
| `EnvVars.TruthyExamples` | tryit/x.py:16-20 | The documented cases hold: "123" is truthy and "false" is not. |
| `EnvVars.TruthyTestCases` | tryit/y.py:6-11 | The other parametrised cases hold: "yes" is truthy and "0" is not. |
| `EnvVars.IntRoundTrip` | tryit/x.py:65 | Whenever `str(i)` returns, the decimal string it writes parses back to `i`, negative integers included. |
| `EnvVars.DigitLimitBound` | tryit/x.py:65 | `str(i)` raises exactly when the magnitude of `i` is at least 10^4300. |
| `EnvVars.NatDigitsLength` | tryit/x.py:65 | A natural number has at most `k` decimal digits (`k` at least 1) exactly when it is below 10^k. |
| `EnvVars.DigitLimitExamples` | tryit/x.py:22-25 | A string of 4301 ones is not truthy, because `int()` refuses it and it is none of the words. `set_env_var("K", 10**4300)` fails in `str()`. |
| `EnvVars.NatDigitsValue` | tryit/x.py:65 | The digits `str()` writes for a natural number form a valid numeral, and that numeral has the number's value. |
| `EnvVars.ReplaceCharIsReplace` | tryit/x.py:48 | The position-by-position character substitution used for the key equals `str.replace` with a one-character pattern and replacement. |
| `EnvVars.NormaliseKeyShape` | tryit/x.py:48 | A normalised key has the original length and contains no space, no dash and no lower-case ASCII letter. Each character is `_` where the key had a space or dash, and the upper-cased character elsewhere. |
| `EnvVars.NormalKeyFixed` | tryit/x.py:64 | A key already in normal form is unchanged by normalisation. |
| `EnvVars.NormaliseIdempotent` | tryit/x.py:48 | Normalising twice is the same as normalising once. |
| `EnvVars.UnsetIsFalse` | tryit/x.py:82-85 | A variable whose normalised key is absent reads as false. |
| `EnvVars.Environ.SetEnvVar` | tryit/x.py:52-65 | When `os.environ` accepts the assignment, the environment afterwards is the old one with only the normalised key changed, to `str(value)`. When `str()` refuses the value or `os.environ` refuses the assignment, the error is reported and nothing changes. |
| `EnvVars.SetEnvErrorOfKey` | tryit/x.py:64-65 | The call first fails with the digit-limit `ValueError` of `str()` for an integer of magnitude at least 10^4300. Next it fails with the embedded-null `ValueError` for a NUL in the key or in a string value. Then it fails with the illegal-name `ValueError` for an `=` in the key, and last with `OSError` for an empty key. |
| `EnvVars.SetThenFetch` | tryit/x.py:61-62 | After a set, fetching through any key spelling with the same normalised form returns `str(value)`. Every other key reads as before. |
| `EnvVars.SetThenBoolean` | tryit/x.py:68-85 | After a set, `boolean_env_var` gives: for an integer that `str()` accepts, whether it is non-zero; for a bool, the bool itself; for a string, that string's truthiness. |
| `Text.Words` | data-ingestion/preprocessor.py:37 | `split()` yields no empty word and no word containing whitespace. |
| `Text.WordsKeepText` | data-ingestion/preprocessor.py:37 | `split()` loses only whitespace: the words concatenated are the input with its whitespace deleted. |
| `Text.WordsOfStrip` | data-ingestion/preprocessor.py:37 | `s.strip().split()` equals `s.split()`. |
| `Text.WordsOfJoin` | data-ingestion/preprocessor.py:184 | Splitting the space-join of non-empty, whitespace-free words gives the words back. |
| `Text.ReplaceLength` | data-ingestion/preprocessor.py:128 | Each replacement trades the pattern's length for the replacement's length. |
| `Text.ReplaceAbsent` | data-ingestion/preprocessor.py:128 | A string without the pattern is left unchanged. |
| `Text.ReplaceTrailing` | data-ingestion/preprocessor.py:128 | Where the only occurrence of the pattern is at the end, replacing it changes only the end. |
| `PreprocessorJob.UnquoteShape` | data-ingestion/preprocessor.py:34-35 | Quotes come off only when `"` is both the first and the last character. Otherwise the string is unchanged. |
| `PreprocessorJob.NormaliseExtraArgs` | data-ingestion/preprocessor.py:33-37 | An absent or empty argument string gives `[]`. No token is empty or contains whitespace. |
| `PreprocessorJob.ExtraArgsKeepText` | data-ingestion/preprocessor.py:33-37 | The tokens, concatenated, equal the unquoted text with every `\"` turned into `"` and all whitespace removed. |
| `PreprocessorJob.Preprocessor.constructor` | data-ingestion/preprocessor.py:26-37 | The store directory is resolved against the working directory, the status starts at `Ready`, and the extra arguments are normalised. |
| `PreprocessorJob.SuffixesExclusive` | data-ingestion/preprocessor.py:61-66 | No name ends in both `.tar.gz` and `.zip`, so at most one suffix is ever appended. |
| `PreprocessorJob.InferArchiveName` | data-ingestion/preprocessor.py:59-66 | The step-by-step rebuilding of `outname` computes `ArchiveName`. |
| `PreprocessorJob.ArchiveNameSpec` | data-ingestion/preprocessor.py:61-66 | The store's suffix is appended exactly when the requested name lacks it. A requested name with the other suffix is the assertion failure, and this holds in both directions. A name with the right suffix is kept. The staged name carries the store's suffix. |
| `PreprocessorJob.DottedSuffix` | data-ingestion/preprocessor.py:70-73 | A `.zip` name ends in "zip", and a `.tar.gz` name ends in "tar.gz" and not in "zip". |
| `PreprocessorJob.DispatchFollowsStore` | data-ingestion/preprocessor.py:61-75 | A staged zip is unzipped and a staged tarball is untarred. Any other name is dispatched as the requested name would be. |
| `PreprocessorJob.UndottedZipIsUnzipped` | data-ingestion/preprocessor.py:70 | The bare ending "zip" is enough for unzip, and ".tgz" is not extracted at all. |
| `PreprocessorJob.StageSpec` | data-ingestion/preprocessor.py:55-67 | SCS fails first and a missing outdir second. A suffix conflict fails exactly when `ArchiveName` refuses. The staged-file assertion fails exactly when the staged archive is not a file after the download. Staging succeeds exactly when every check passes, and it yields the staged name. |
| `PreprocessorJob.Preprocessor.FetchAndExtractBuild` | data-ingestion/preprocessor.py:52-84 | The operation fails exactly when staging fails, with the same failure. An SCS or outdir failure changes nothing. A later failure keeps only the downloaded files. On success, the store name becomes the staged archive and the extractor is the one its name selects. Files and directories then change by exactly what the store and the extractor wrote. |
| `PreprocessorJob.Preprocessor.FetchAndExtractPreprocessor` | data-ingestion/preprocessor.py:86-93 | Every staging failure passes through unchanged. The store name and directories are kept, and the files are the old ones plus the download, unless the outdir check failed before the download. After successful staging, the result is the emptiness failure exactly when the store directory lists nothing. The new store name, files and directories are stated. On success, the staged archive is a file and the store directory exists and is non-empty. |
| `PreprocessorJob.ListingEmpty` | data-ingestion/preprocessor.py:92-93 | `os.listdir` of a directory is empty exactly when nothing lies below it. |
| `PreprocessorJob.NestedEntryListed` | data-ingestion/preprocessor.py:92 | An entry `d/name/...` lists `name` in `d`, however deeply it is nested, so an archive that unpacks into a subdirectory makes the store non-empty. |
| `PreprocessorJob.ToolRootLength` | data-ingestion/preprocessor.py:126-128 | The tool root is shorter than the jar path by the marker's length once per occurrence of `/lib/preprocessor.jar`. |
| `PreprocessorJob.ToolRootOfJar` | data-ingestion/preprocessor.py:126-128 | For `<dir>/lib/preprocessor.jar`, the root is `<dir>` when `<dir>` does not itself contain the marker. |
| `PreprocessorJob.ToolRootWithoutMarker` | data-ingestion/preprocessor.py:128 | A path without the marker is its own root. |
| `PreprocessorJob.Preprocessor.GetPreprocPath` | data-ingestion/preprocessor.py:123-130 | The result is the tool root exactly when it is a directory as seen from the working directory. Otherwise it is the assertion failure. `is_scs` plays no part. |
| `PreprocessorJob.Preprocessor.GetPreflightPaths` | data-ingestion/preprocessor.py:133-153 | Success holds exactly when, seen from the working directory, the tool path is a directory and the binary root and the Java path both exist. The result is (root, `root/compile.xml`, java). Each failing check gives its own failure, in the source's order. |
| `PreprocessorJob.SubmitRefusalSpec` | data-ingestion/preprocessor.py:157-199 | Each refusal happens exactly when its own check fails and every earlier check passes. The request checks and the tool-root check resolve paths against the original directory. The checks of lines 140, 143 and 151 resolve them inside the tool root. The tool runs exactly when all checks pass and `PATH` is set. |
| `PreprocessorJob.AbsoluteToolRoot` | data-ingestion/preprocessor.py:167-171 | For an absolute tool root, the directory changed into is the root itself, and the check at line 140 agrees with the check at line 129. |
| `PreprocessorJob.RelativeToolRootRefused` | data-ingestion/preprocessor.py:167-171 | A relative root `tool` under `/w` passes line 129 but fails line 140, which looks for `/w/tool/tool` once inside the root. |
| `PreprocessorJob.CommandHeadWords` | data-ingestion/preprocessor.py:179-183 | The command head splits into the script and the three flags with their values, in the fixed order. |
| `PreprocessorJob.CommandWords` | data-ingestion/preprocessor.py:179-188 | For whitespace-free paths, the command line splits into: the script, the three flags and values in order, the extra arguments, and then `> /dev/null 2>&1` exactly when DEBUG is off. |
| `PreprocessorJob.PayloadRestored` | data-ingestion/preprocessor.py:204-216 | A non-empty payload the tool removed comes back byte for byte at its path as seen from the tool root. No restoring happens when the payload is still present, was empty, or was never there. Every other path keeps exactly the entry and bytes the tool left. |
| `PreprocessorJob.Preprocessor.SubmitPreflight` | data-ingestion/preprocessor.py:155-233 | The job is refused exactly when a check fails, and the first failing check is reported (`SubmitRefusal`). A refusal changes neither the status nor the files, and the directory is the tool root only for checks made after the change of directory. Once every check passes, the tool runs in the tool root, with the exact command line and Java first on `PATH`. The environment is as before on every exit. Exit 0 with no exception leads to `Finished`, with the payload restored and the directory restored. Non-zero leads to `Failed`, with the directory left at the tool root. An exception leaves the status alone. An exception after a zero exit also leaves the directory at the tool root and the files as the tool left them, with the payload restored only if the exception came after line 216. |
| `PreprocessorJob.Preprocessor.RunPreflight` | data-ingestion/preprocessor.py:197-232 | While the tool runs, `PATH` is the Java path, the path separator, then the old `PATH`. `PATH` is restored on every exit: the normal one, the early return, and an exception before or after the run. The status moves to `Failed` or `Finished` according to the exit code. An exception leaves the status alone, and after a zero exit it leaves the files the tool left, with the payload restored only if the exception came after line 216. |
| `PreprocessorJob.SameJobByIdentity` | data-ingestion/preprocessor.py:95-99 | Jobs with the same branch and revision are equal. With a collision-free hash, only those are equal. |
| `OllamaApi.IndexOfPlaceholder` | foo.py:67 | `index(PLACEHOLDER)` is the position of a placeholder with none before it. |
| `OllamaApi.NoPlaceholderCount` | foo.py:66 | A list has no placeholder exactly when its placeholder count is zero. |
| `OllamaApi.CollectAppend` | foo.py:85 | Accumulation is in order: the text of `a + b` is the text of `a` followed by the text of `b`. |
| `OllamaApi.BlankIgnored` | foo.py:77 | Empty lines contribute nothing, wherever they stand. |
| `OllamaApi.FailureSticks` | mine/foo2.py:99-104 | Once the selector has raised, no later line undoes it. |
| `OllamaApi.FirstStop` | foo.py:76-84 | The stop position has no stopping record before it, and has a stopping record at it unless it is the end of the stream. |
| `OllamaApi.FirstStopUnique` | foo.py:79-84 | Any position with those two properties is the stop position. |
| `OllamaChat.StopRecordDropped` | foo.py:79-85 | The text is the selected content of the records before the first error or `done` record. Nothing from that record, or from any lines that follow it, is appended. |
| `OllamaChat.LLM.constructor` | foo.py:27-32 | The host is `OLLAMA_HOST` or `http://localhost:11434`, and the model is kept. |
| `OllamaChat.LLM.PrintStreamedResponse` | foo.py:73-87 | The returned text is the in-order concatenation of the selector over the non-blank records before the first stopping record. It is `None` when the selector raised first. |
| `OllamaChat.AnswerAt` | foo.py:66-70 | One loop turn answers the first placeholder, or raises, and leaves the rest of the list untouched. |
| `OllamaChat.LLM.FillPlaceholders` | foo.py:65-70 | The in-place loop over the copy computes the substitution `Resolve`, giving both the requests sent and the completed list, or the request that raised. |
| `OllamaChat.LLM.Chat` | foo.py:48-71 | A prompt, or a non-list, fails the assertions. Otherwise the posts are those of `ChatRun` on the caller's list, which is left unchanged. |
| `OllamaChat.RequestsHaveNoPlaceholder` | foo.py:67-68 | No request sent for a placeholder contains a placeholder. |
| `OllamaChat.FinalShape` | foo.py:66-71 | The completed list has the input's length and no placeholder, and every non-placeholder message stays in place. Each placeholder has become the assistant's answer to the completed list before it. |
| `OllamaChat.RequestsAtPlaceholders` | foo.py:66-68 | Each request is the completed conversation up to a placeholder of the input. |
| `OllamaChat.RequestsInOrder` | foo.py:66-68 | Requests grow strictly longer: the placeholders are answered from left to right. |
| `OllamaChat.RequestCount` | foo.py:66-71 | With no exception, there is one request per placeholder. When an answer raises, the raising request is the last one sent. |
| `OllamaChat.RequestsArePrefixes` | foo.py:67-70 | Every request is a prefix of the completed list, so earlier answers are part of later requests. |
| `OllamaChat.ChatRequests` | foo.py:48-71 | `run_thru` is called (placeholders + 1) times. No request carries a placeholder. The last request has the input's length, keeps its messages, and extends every earlier one. |
| `OllamaChat.SliceBound` | foo.py:111 | A Python slice bound lands within the list, and an in-range bound is kept. |
| `OllamaChat.SnippetSelectsLines` | foo.py:108-111 | For `start >= 1`, lines `start` to `finish` are selected, 1-based and inclusive. A finish past the end stops at the last line. An empty range, or a start past the end, gives the empty snippet. |
| `OllamaChat.SnippetFromZero` | foo.py:111 | A start of 0 is index -1, which selects only the last line or nothing. |
| `OllamaGroups.ScanPull` | mine/foo2.py:34-41 | The flag is set exactly when some non-empty line's status, lower-cased, is "success". |
| `OllamaGroups.SuccessIgnoresCase` | mine/foo2.py:39 | Status comparison ignores case, and a missing status is not success. |
| `OllamaGroups.Connect` | mine/foo2.py:27-42 | Without `OLLAMA_HOST`, the first post raises. Otherwise the client exists exactly when the pull of the model (default "tinyllama") reports success, and it keeps that host and model. |
| `OllamaGroups.DoneContentKept` | mine/foo2.py:96-106 | The content of the `done` record is kept: the text is what `foo.py` collects, followed by that record's content. |
| `OllamaGroups.LLM.PrintStreamedResponse` | mine/foo2.py:93-107 | The text runs up to and including the first record whose `done` is not false. A missing `done` key, or a selector error, is an exception. |
| `OllamaGroups.GroupsHaveNoPlaceholder` | mine/foo2.py:68-75 | No group contains a placeholder. |
| `OllamaGroups.GroupsRejoin` | mine/foo2.py:68-79 | Joining the groups with placeholders reproduces the input, less a final placeholder. |
| `OllamaGroups.GroupsNonEmpty` | mine/foo2.py:77-79 | A non-empty conversation has at least one group. |
| `OllamaGroups.GroupCount` | mine/foo2.py:67-79 | There is one group per placeholder, plus one for a non-empty remainder. An empty remainder is dropped. |
| `OllamaGroups.EmptyGroups` | mine/foo2.py:72-75 | A leading placeholder, and each pair of adjacent placeholders, gives an empty group. |
| `OllamaGroups.SplitGroups` | mine/foo2.py:66-79 | The loop computes `Groups`, the placeholder-separated segments in order. |
| `OllamaGroups.DefaultConversation` | mine/foo2.py:59-65 | With neither prompt nor messages, there is one group: a user message asking "Why is there air?". |
| `OllamaGroups.LLM.Chat` | mine/foo2.py:58-91 | There is one `/api/chat` post per group, in group order, each carrying the model and that group. Every reply before the last read without error. The loop ends early only at a reply that raised. |
| `OllamaGroups.PostsCarryGroups` | mine/foo2.py:81-87 | Each post's messages are exactly one group, with no placeholder, so no answer is fed back. |

## Left out

- Shell side effects are not modelled, except the extraction's written files and directories and the files the tool run leaves. The tool run's effect on directories is not modelled either, so `SubmitPreflight` keeps the directories unchanged. This covers `cp` of the log4j files, `chmod`, `mkdir -p dist/conf`, the `noexec` mount check and the `sudo` remount.
- Paths recorded in the file system, and the working directory `Host.cwd`, are taken to be absolute and normalised, as `os.getcwd()` returns them. With a relative `cwd` a staged name would be joined onto it twice, which cannot happen in the source. `os.listdir` lists the first component of each entry below the directory.
- `os.path.realpath` and `os.path.abspath` normalisation is not modelled: a path is only joined onto the working directory with the two-argument `os.path.join` rule.
- `PreprocessorJob.Preprocessor.SubmitPreflight`: output-tarball packaging is reduced to the flag `searchedOutputs` (whether `PP_OUTPUT_TARBALL` is set). The `find` and `tar` commands depend on a timestamp, and the `find` command is malformed.
- `PreprocessorJob.Preprocessor.SubmitPreflight`: `_app_path` is a caller-supplied path. The source initialises it to `None` and never sets it, and `os.path.isfile(None)` does not return normally.
- `PreprocessorJob.Preprocessor.FetchAndExtractBuild`: the download, the extracting command and the log4j copies are not modelled. Their effect on the file system is the parameters `reply.written`, `unpacked` and `unpackedDirs`. Extraction only adds entries.
- `PreprocessorJob.Preprocessor.constructor`: `abspath` is modelled as a join onto the working directory, without removing `.`, `..` or repeated separators.
- `PreprocessorJob.Preprocessor.SubmitPreflight`: the main-binary-files entry is checked only for being a list.
- `PreprocessorQueue` is an empty subclass of a class outside this repository.
- Logging, the HTTP transport, JSON decoding and the module-level script runs at import are not modelled. A reply is the sequence of its decoded lines, and a line that is not valid JSON is not represented.
- `OllamaChat.LLM.PrintStreamedResponse`: a `done` value is a bool or absent. Other truthy JSON values of `done` are not represented.
- `OllamaGroups.ScanPull`: a "status" value that is not a string, which would raise on `.lower()`, is not represented.
- `OllamaGroups.LLM.PrintStreamedResponse`: returns the text the source only logs, since the source returns `None`.
- `OllamaGroups.Connect`: `__init__` is a module-level method returning `Err` for the two exceptions, because a Dafny constructor cannot fail.
- `generate` in `foo.py` and `mine/foo2.py` is not modelled. It is the same streamed read against another endpoint and selector.
- `EnvVars.IsTruthy`: `int()`, `lower()`, `upper()` and `isspace()` are modelled on ASCII only. Unicode digits, letters and whitespace are not.
- `EnvVars.MaxStrDigits` is CPython's default digit limit of 4300. A program can change it with `sys.set_int_max_str_digits` or `PYTHONINTMAXSTRDIGITS`, and Python releases from before the limit was introduced in 2022 have none. Neither case is modelled.
- `PreprocessorJob.RequestInfo`: a key missing from the request dictionary is represented as a `None` value. The source raises `KeyError` instead of `AssertionError` there, at the same line and before any change, and the model reports both under the same `Failure`.
- Concurrent jobs sharing `os.environ['PATH']` are not modelled: one job runs per process.
- `EnvVars.Environ.SetEnvVar`: values are strings, integers or bools (`PyValue`). `str()` of any other type, such as a float, a list or an object with its own `__str__`, is not modelled.
- The Ollama server is modelled as a function of the request, so identical requests get identical replies, for example two equal groups posted by `OllamaGroups.LLM.Chat`. A real server does not promise this.
- `data-ingestion/ingest.py` (embedding I/O), `tryit/z.py` (logging set-up) and `tryit/y.py` (a test file) are not part of this model.
