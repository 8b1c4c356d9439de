# Query runner of the RAG chat front-end, in Dafny

The chat front-end forwards each question to an external command-line tool,
`python -m scripts.ask`. It then shows the tool's answer and, when there is
some, supporting evidence. All of its logic lives in the query runner
`webui/rag_client.py`. This project models that runner:

- **The capability cache.** `_FORMAT_SUPPORTED` is a process-wide
  `Optional[bool]`. The first call of `_detect_format_flag` fills it by
  launching the tool with `--help` and looking for the text `--format` in
  its output. After that the value never changes. Modelled by the class
  `RagClient.Client`: its field `formatSupported: Option<bool>` is updated
  by the method `DetectFormatFlag`.
- **One query run (`_run_ask`).** The method builds the argument vector
  step by step. It probes only when a format is asked for, because
  `fmt and _detect_format_flag(...)` short-circuits. It extends
  `PYTHONPATH` with the repository root, launches the tool, and returns
  both output streams stripped plus the exit code. Modelled by
  `Client.RunAsk`. The argument vector it must build is the pure function
  `CommandLine.Argv`.
- **`ask_with_evidence`.** With `--format` supported, it makes a concise
  run for the answer and a full run for the evidence. Both stderr texts are
  joined and appended to the evidence under a `[stderr]` label. Without
  support, it makes one plain run, and the labelled stderr is the whole
  evidence. Modelled by `Client.AskWithEvidence`, with the pure folds
  `Evidence.FoldTwoRuns` and `Evidence.FoldOneRun`.

The operating system is the class `RagClient.ProcessHost`. It holds the
environment the runner copies and the path-list separator `os.pathsep`.
Its method `Launch` may end in any outcome: the child exits with some
stdout, stderr and exit code, or the launch raises. Every launch is
appended to the ghost log `Calls` together with its outcome. The runner's
contracts state how many launches happen, in what order, with which
argument vector, working directory, environment and timeout, and how the
result is computed from the logged outcomes.

Python's string behaviour that the runner depends on is in module
`PyText`: `str.strip()`, `in`, `str.join`, `str(int)` and the truthiness
of `Optional[str]`. `Strip` removes exactly the characters for which
`str.isspace()` is true.

Modules, in dependency order:

- `Wrappers`: `Option`, and `Result`, which stands for "returned a value
  or raised".
- `PyText`: the string operations above.
- `SearchPath`: the `PYTHONPATH` rule.
- `CommandLine`: the argument vector, and a parser that reads the optional
  flags back.
- `Evidence`: how the runs' output becomes the answer and the evidence.
- `RagClient`: the classes.

Points where the code's behaviour is easy to misread:

- The probe never reads the exit code of `--help`
  (webui/rag_client.py:35-38). Whatever the exit code, the verdict is
  whether `--format` occurs in the output. Only an exception (a launch
  failure or the 15-second timeout) forces `False`.
- `_run_ask` catches nothing (webui/rag_client.py:81-89). A launch failure
  or timeout during a query run leaves `ask_with_evidence`, and no further
  run is started (webui/rag_client.py:107-126). The model returns `Raised`
  in that case.
- `--format` comes right after the fixed prefix, before `--llm-model` and
  `--no-rerank` (webui/rag_client.py:67-68).
- The docstring of `ask_with_evidence` says the evidence is empty when
  there is only one run (webui/rag_client.py:104). The code at
  webui/rag_client.py:119-125 folds stderr into it instead: the evidence is
  `"[stderr]\n"` followed by the stripped stderr when that is non-empty.
  The model follows the code.

## Model

| member | source | states |
|---|---|---|
| `PyText.Strip` | webui/rag_client.py:89 | the result is a slice of the input with no white space at either end, and only white space was removed around it |
| `PyText.StripOfUnique` | webui/rag_client.py:89 | only one string meets that description, so `Strip` is `str.strip()` for every input |
| `PyText.StrippedIsFixed` | webui/rag_client.py:116 | a string with no white space at either end is unchanged by stripping |
| `PyText.StripIdempotent` | webui/rag_client.py:116 | stripping an already stripped text changes nothing |
| `PyText.ContainsIsSubstring` | webui/rag_client.py:36 | the computed `in` test is true exactly when the needle occurs at some position of the haystack |
| `PyText.NatToDecimal` | webui/rag_client.py:62 | a natural number prints as one or more decimal digits, with no leading zero, and as `0` exactly for zero |
| `PyText.IntToString` | webui/rag_client.py:62 | `str(k)` is an optional minus sign followed by one or more digits, with no leading zero and no `-0`; the sign is there exactly when `k` is negative |
| `PyText.ParseIntToString` | webui/rag_client.py:62 | reading the `--k` argument back as a decimal number gives `k` again |
| `PyText.IntToStringInjective` | webui/rag_client.py:62 | different `k` values give different `--k` arguments |
| `SearchPath.WithSearchPath` | webui/rag_client.py:18-23 | the child environment keeps every other variable unchanged, and only `PYTHONPATH` gets the extended value |
| `SearchPath.ExtendSearchPathKeepsPrior` | webui/rag_client.py:76-79 | the repository root always comes first; a non-empty old value follows the root and exactly one separator and can be read back exactly; an absent or empty old value gives the root alone |
| `CommandLine.ArgvLayout` | webui/rag_client.py:59-73 | every query's argument vector starts with the 11 fixed elements, with the query as one verbatim element and the `--k` argument reading back as `k`. The rest parses as: format exactly when one is requested and supported; model exactly when the backend is not `none` and a model is given; `--no-rerank` exactly when reranking is off |
| `CommandLine.ParseFlagArgs` | webui/rag_client.py:66-73 | the optional groups, in the order format, model, rerank, read back as exactly the groups that were chosen |
| `CommandLine.FlagArgsOfParse` | webui/rag_client.py:66-73 | any tail the parser accepts is exactly the layout of the flags it reads, so no flag repeats, is out of order, or is followed by anything |
| `CommandLine.NoModelWithoutBackend` | webui/rag_client.py:70-71 | with backend `none` no model flag is passed, whatever the model field holds |
| `CommandLine.ExtractOnlyQueryArgv` | webui/rag_client.py:42-73 | an extraction-only query with default storage and top-k, and no format support, runs with just the prefix: `--storage storage --k 4 --llm-backend none --q <query>` |
| `Evidence.MergeErrors` | webui/rag_client.py:114 | the merged stderr is the one non-empty stderr, or both joined by a newline, or empty when both are empty |
| `Evidence.StripLabelledBlock` | webui/rag_client.py:116 | when the full run printed nothing, the final strip removes only the two blank lines in front of the label |
| `Evidence.StripTextAndLabelledBlock` | webui/rag_client.py:116 | after non-empty evidence, the final strip leaves the labelled block untouched |
| `Evidence.FoldTwoRunsEvidence` | webui/rag_client.py:114-117 | two-run evidence is the full run's stdout when there is no stderr. Otherwise it is the stdout, a blank line, the label and both stderr texts whole; the label comes first when stdout was empty |
| `Evidence.FoldTwoRunsAnswer` | webui/rag_client.py:107-117 | the two-run answer is the concise run's stdout; the evidence is empty exactly when the full run's stdout and both stderr texts are |
| `Evidence.FoldOneRunEvidence` | webui/rag_client.py:118-126 | one-run evidence is empty exactly when stderr is, and otherwise is the label followed by the whole stderr |
| `Evidence.FoldsIgnoreReturnCodes` | webui/rag_client.py:108-126 | changing either run's exit code changes neither the answer nor the evidence |
| `RagClient.ProbeVerdict` | webui/rag_client.py:35-38 | support exactly when `--format` occurs in stdout, a newline and stderr; a raised launch means no support; the exit code plays no part |
| `RagClient.RunOf` | webui/rag_client.py:81-89 | a finished run yields both streams stripped and the exit code unchanged; a raised launch yields the exception |
| `RagClient.ProcessHost.Launch` | webui/rag_client.py:81-88 | each launch is appended, with whatever outcome it had, to the log |
| `RagClient.Client.constructor` | webui/rag_client.py:7 | the capability starts unknown |
| `RagClient.Client.DetectFormatFlag` | webui/rag_client.py:9-39 | with a cached value: returns it and launches nothing. Otherwise: one `--help` launch (fixed argv, repository root as cwd, extended search path, 15 s), whose verdict is cached and returned. The cache is never reset |
| `RagClient.Client.FormatGroup` | webui/rag_client.py:66-68 | with no or an empty format: no probe, no launch and no `--format` group. Otherwise: the probe step runs, and the group is `--format <fmt>` exactly when the cached capability is `True` |
| `RagClient.Client.RunAsk` | webui/rag_client.py:42-89 | probes only when a non-empty format is given. Then one launch with exactly `Argv` for the cached capability, repository root, extended search path and the given timeout. The result is `RunOf` of that launch; a non-zero exit does not raise |
| `RagClient.Client.AskTwoRuns` | webui/rag_client.py:107-117 | with support: a concise run, then (unless it raised) a full run, and the reply is `FoldTwoRuns` of the two |
| `RagClient.Client.AskOneRun` | webui/rag_client.py:118-126 | without support: exactly one run with no format, and the reply is `FoldOneRun` of it |
| `RagClient.Client.AskWithEvidence` | webui/rag_client.py:92-126 | the probe step (a launch only if the cache was empty), then exactly the runs and reply `AskRuns` describes for the now-cached capability, all appended to the log in that order |

## Left out

- Real process execution, `sys.executable`, `Path(__file__).resolve().parents[1]` and `os.environ.copy()` are parameters. They are the interpreter path `exe`, the repository root `repoRoot`, the constant `ProcessHost.environ` and the separator `ProcessHost.pathsep`.
- `RagClient.ProcessHost.Launch`: its outcome is arbitrary. The model cannot say anything about what `scripts.ask` prints, because that tool is not part of this model.
- Timeouts are recorded in each logged invocation: 15 s for the probe, 120 s by default for a query, or any integer the caller passes, zero and negative values included. Enforcing them is left out; a timeout, including the immediate one a non-positive value causes, shows up only as a `Failed` launch.
- Text decoding (`encoding="utf-8"`, `errors="ignore"` in the probe, the locale encoding in query runs) is left out. Strings are sequences of Unicode characters.
- `proc.stdout or ""` in the probe: with captured output the streams are always strings, so `None` is not modelled.
- Exceptions raised outside the launch are left out. The launch's own (start failure, timeout, undecodable output) are the `Failed` outcome; the one other that `_run_ask` can meet is the `str(k)` limit below.
- `webui/app.py` is not part of this model. It is Streamlit rendering: the sidebar, the chat history, the placeholder text for an empty answer, and clearing the history.
- Concurrent first probes racing on the module-level cache: the model is single-threaded.
- The values allowed for `llm_backend` and the top-k range are not checked by the runner, so the model takes any string and any integer `k`.
- PyText.IntToString: Python's `str(k)` raises `ValueError` for integers of more than 4300 digits (the interpreter's default `int_max_str_digits` limit). At webui/rag_client.py:62 that happens while the argument vector is built, before any probe or launch. The model's `str` is total, so for such a `k` `RagClient.Client.RunAsk` launches where the program raises. The only caller passes top-k from 1 to 12.
