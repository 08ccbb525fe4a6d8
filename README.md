# generate_json: a verified model of the transaction-log pipeline

`pipeline.py` reads a text file of transactions. Each line holds an emitter name, a date and an amount. The pipeline reduces the lines to a JSON record `{"name": …, "total_sent": …}`. The heart of it is `generate_json`, one ordered pass over the lines:

- A blank or whitespace-only line is skipped.
- A line with fewer than three whitespace-separated fields is skipped. A notice is printed.
- Any other line sets `name` to its first field.
- The third field has "€" removed, then "â‚¬" removed, and is read by `int`.
  - When `int` succeeds, the value is added to `total_sent`.
  - When it fails, a notice is printed. `name` has already been set by then.

The lines reach `generate_json` in one of two ways:

- `process_file` reads the whole file with `load_sample`. `generate_json` then iterates over that list.
- `process_file_with_generator` hands `generate_json` the generator `load_sample_generator`, which yields one line at a time.

The model is split into modules:

- `PyStr`: Python's `str.strip`, `str.split()`, `str.replace(pat, "")` and `" ".join`. Whitespace is the exact set `str.isspace` accepts.
- `PyInt`: `int` on a token, together with `str(n)` as its inverse. `int` refuses a literal of more than 4300 digits, CPython's default limit since 3.11.
- `PyPath`: `os.path.basename`.
- `Pipeline`: the data model, the per-line classification, the specification of the pass, and the pass itself.
  - The pass is a method with a loop that pulls lines from a `LineStream` object. Python's `for` calls `next()` on a list iterator or a generator in the same way, and `LineStream` models both.
  - The loop invariant ties the accumulators to specification functions over the lines read so far.
- `PipelineProperties`: lemmas about the pass. They cover:
  - how it splits over concatenated inputs;
  - which lines leave it unchanged;
  - where `name` comes from and what `total_sent` sums;
  - that both ways of reading a file agree;
  - how the two euro-sign removals interact;
  - the name of the result file.

The printed notices are modelled as a returned log of `Diagnostic`s. Each one carries the stripped line, as the `print` calls quote it.

## Model

| member | source | states |
|---|---|---|
| Pipeline.GenerateJson | pipeline.py:19-48 | Consumes the rest of the line stream. The returned record is `Aggregate` of the lines read, and the log is `Diagnostics` of those lines. The loop invariant keeps `name`, `total_sent` and the printed notices equal to the specification over the lines read so far. |
| Pipeline.AbsorbLine | pipeline.py:24-42 | One iteration of the loop body, with the strip, split, replace and `int` steps and the `continue` paths. It turns the accumulators for `lines[i..j]` into those for `lines[i..j+1]`. |
| Pipeline.LineStream.Next | pipeline.py:15-16 | `next()` on the line source. It yields the next line and advances once, or it reports exhaustion and changes nothing. |
| Pipeline.LineStream.constructor | pipeline.py:23 | The iterator the `for` takes from the list `load_sample` returned: a fresh stream over the given lines, at the first line. |
| Pipeline.LoadSampleGenerator | pipeline.py:13-16 | A fresh stream over exactly the file's lines, positioned at the first one. |
| Pipeline.ProcessFile | pipeline.py:73-76 | With all lines loaded first, the record is `Aggregate(file)` and the notices are `Diagnostics(file)`. |
| Pipeline.ProcessFileWithGenerator | pipeline.py:91-94 | With lines pulled from the generator, the record is `Aggregate(file)` and the notices are `Diagnostics(file)`. |
| PipelineProperties.BothPathsAgree | pipeline.py:73-76 | The eager path and the generator path give the same record, `Aggregate(file)`, and the same notices, `Diagnostics(file)`. The second path is at lines 91-94. |
| Pipeline.ClassifySpec | pipeline.py:25-30 | A line is blank exactly when it is all whitespace. It names an emitter exactly when it has three fields or more. |
| Pipeline.FoldStep | pipeline.py:23-42 | One more line adds its share to `total_sent`, and its notice to the log. It replaces `name` exactly when the line names an emitter. |
| Pipeline.KindsStep | pipeline.py:23 | Reading one more line appends its classification. The earlier lines are unaffected. |
| Pipeline.BlankLineKind | pipeline.py:25-26 | A line whose `strip()` is empty is skipped. |
| Pipeline.ShortLineKind | pipeline.py:27-32 | A non-blank line with fewer than three fields is malformed. Its notice quotes the stripped line. |
| Pipeline.FullLineKind | pipeline.py:34-42 | A line with three fields or more names field 0. It is an entry for the parsed amount when `int` succeeds, and a bad amount quoting the stripped line otherwise. |
| PipelineProperties.KindsConcat | pipeline.py:23 | Classification is per line: the kinds of `a + b` are the kinds of `a` followed by those of `b`. |
| PipelineProperties.AnyNamesOfKinds | pipeline.py:30-34 | Some kind names an emitter exactly when some line has three fields or more. |
| PipelineProperties.AnyNamesSnoc | pipeline.py:34 | Appending a kind names an emitter exactly when that kind names one or an earlier one did. |
| PipelineProperties.TotalOfConcat | pipeline.py:20-39 | Over kinds, the total of `xs + ys` is the total of `xs` plus the total of `ys`. |
| PipelineProperties.LastOfConcat | pipeline.py:21-34 | Over kinds, the name after `xs + ys` is the one `ys` names if it names any, else the one from `xs`. |
| PipelineProperties.NoticesOfConcat | pipeline.py:30-42 | Over kinds, the notices of `xs + ys` are those of `xs` followed by those of `ys`. |
| PipelineProperties.TotalSentConcat | pipeline.py:20-39 | `total_sent(a + b) == total_sent(a) + total_sent(b)`. |
| PipelineProperties.LastEmitterConcat | pipeline.py:21-34 | `name(a + b)` is `name(b)` if `b` has a line of three fields or more, else `name(a)`. |
| PipelineProperties.DiagnosticsConcat | pipeline.py:31-41 | The notices for `a + b` are those for `a`, then those for `b`. |
| PipelineProperties.OneLine | pipeline.py:24-42 | The pass over a single line: its share of the total, its emitter if it names one, and its notice. |
| PipelineProperties.SkippedLineChangesNothing | pipeline.py:25-32 | A blank line, or a line with fewer than three fields, can be removed from anywhere in the input without changing `name` or `total_sent`. |
| PipelineProperties.BlankLineIsSilent | pipeline.py:25-26 | A blank line prints nothing. |
| PipelineProperties.ShortLineIsReported | pipeline.py:30-32 | A short line prints exactly one malformed-line notice with the stripped text, in its place in the log. |
| PipelineProperties.BadAmountDoesNotAbort | pipeline.py:34-42 | A line whose amount does not parse adds nothing, and the lines after it are still counted. It sets `name` unless a later line names an emitter, and it prints one invalid-amount notice. |
| PipelineProperties.NameIsFromLastNamingLine | pipeline.py:34-42 | `name` is field 0 of the last line with three fields or more, whether or not its amount parses. |
| PipelineProperties.QuietKinds | pipeline.py:20-21 | Kinds that are all blank or malformed leave `name` as `""` and `total_sent` as 0. |
| PipelineProperties.NoNamingLineGivesEmptyRecord | pipeline.py:44-47 | Empty input, or input with no line of three fields or more, gives `{"name": "", "total_sent": 0}`. The initial values are at lines 20-21. |
| PipelineProperties.LineAmount | pipeline.py:38-39 | The pass over one line adds what `int` reads from its cleaned third field, or 0. |
| PipelineProperties.TotalSentIsSumOfAmounts | pipeline.py:38-39 | `total_sent` equals the sum over the lines, first to last, of each line's amount. That sum is defined directly from `line.strip().split()`. |
| PipelineProperties.NameIsAField | pipeline.py:34 | `name` is `""` or a whole field: non-empty and free of whitespace. |
| PipelineProperties.CleanAmountDropsEuro | pipeline.py:38 | No "€" is left in a cleaned amount. |
| PipelineProperties.CleanAmountOfPlainToken | pipeline.py:38 | A token without "€" and without "â" reaches `int` unchanged. |
| PipelineProperties.DropEuroOfSplitSign | pipeline.py:38 | Removing "€" from "5â‚€¬" leaves "5â‚¬". |
| PipelineProperties.DropMisdecodedOfSplitSign | pipeline.py:38 | "5â‚€¬" holds no "â‚¬" to remove. |
| PipelineProperties.EuroFirstClosesUpMisdecodedSign | pipeline.py:38 | In the source's order, "5â‚€¬" cleans to "5" and reads as 5. |
| PipelineProperties.MisdecodedFirstLeavesSign | pipeline.py:38 | In the other order, "5â‚€¬" would clean to "5â‚¬", which `int` rejects. |
| PipelineProperties.ShowIntChars | pipeline.py:38 | `str(n)` is non-empty and holds only ASCII digits and `-`. |
| PipelineProperties.AmountWithEuro | pipeline.py:38 | An amount written `str(n)` followed by "€" cleans to `str(n)`. It reads as `n` when `str(n)` has at most 4300 digits, and is refused otherwise. |
| PipelineProperties.AmountWithMisdecodedEuro | pipeline.py:38 | An amount written `str(n)` followed by "â‚¬" cleans to `str(n)`. It reads as `n` when `str(n)` has at most 4300 digits, and is refused otherwise. |
| PipelineProperties.EntryLine | pipeline.py:27-39 | A line "emitter date amount" whose amount reads as `n` is an entry of `n` for that emitter. |
| PipelineProperties.BadAmountLine | pipeline.py:27-42 | A line "emitter date amount" whose amount does not parse is a bad amount that names the emitter and quotes the stripped line. |
| PipelineProperties.OverlongAmountIsInvalid | pipeline.py:34-42 | A line whose amount is a run of more than 4300 digits sets `name` to its emitter, adds nothing, and prints one invalid-amount notice. |
| PipelineProperties.EuroAmountLine | pipeline.py:27-42 | A line "emitter date str(n)€" is an entry of `n` for that emitter. Past the digit limit, it is a bad amount naming that emitter. |
| PipelineProperties.MisdecodedAmountLine | pipeline.py:27-42 | A line "emitter date str(n)â‚¬" is an entry of `n` for that emitter. Past the digit limit, it is a bad amount naming that emitter. |
| PipelineProperties.TwoTransactions | pipeline.py:19-48 | Two transaction lines, one with each spelling of the euro sign, give the second emitter and the sum of the amounts `int` reads. An amount past the digit limit adds 0. |
| PipelineProperties.IntAcceptsExamples | pipeline.py:38 | `int` reads "1_000" as 1000, "-12" as -12 and "+7" as 7. |
| PipelineProperties.IntRejectsExamples | pipeline.py:38 | `int` rejects "", "-", "12a", "1__0", "_1" and "1_". |
| PipelineProperties.IntDigitLimit | pipeline.py:38 | `int` reads a run of 4300 ones, and refuses a run of 4301. |
| PipelineProperties.ResultFileNameOfTxt | pipeline.py:53 | The JSON for `dir/stem.txt` is named `result_stem_<timestamp>.json`, for a stem without "/" or ".". |
| PipelineProperties.DropEveryTxt | pipeline.py:53 | `replace(".txt", "")` removes every occurrence: "a.txt.txt" becomes "a". |
| PipelineProperties.ResultFileNameDropsEveryTxt | pipeline.py:53 | `dir/a.txt.txt` gives `result_a_<timestamp>.json`: every ".txt" goes, not only the extension. |
| PyStr.TrimStartSpec | pipeline.py:25 | The left strip is a suffix of the input. What it removes is all whitespace, and it starts with a non-space or is empty. |
| PyStr.TrimEndSpec | pipeline.py:25 | The right strip is a prefix of the input. What it removes is all whitespace, and it ends with a non-space or is empty. |
| PyStr.StripSpec | pipeline.py:25 | `strip()` is empty exactly when the line is all whitespace. Otherwise it starts and ends with a non-space. |
| PyStr.StripIsTrimmedSlice | pipeline.py:25 | `strip()` is a contiguous slice of the line, with only whitespace cut on either side. |
| PyStr.LeadingWordSpec | pipeline.py:27 | The first field is the longest whitespace-free prefix. |
| PyStr.SplitSpec | pipeline.py:27 | Every field of `split()` is non-empty and free of whitespace. There are no fields exactly when the line is all whitespace. |
| PyStr.LeadingWordOfWord | pipeline.py:27 | A word followed by whitespace or nothing is read back as the leading field. |
| PyStr.SplitWordThen | pipeline.py:27 | A word followed by whitespace or nothing splits off as the first field. |
| PyStr.SplitJoin | pipeline.py:27 | `" ".join(words).split() == words` for words free of whitespace. |
| PyStr.SplitIgnoresTrailingSpace | pipeline.py:27 | Trailing whitespace does not change `split()`. |
| PyStr.SplitIgnoresTrimEnd | pipeline.py:27 | `rstrip()` does not change `split()`. |
| PyStr.SplitIgnoresTrimStart | pipeline.py:27 | `lstrip()` does not change `split()`. |
| PyStr.SplitIgnoresStrip | pipeline.py:27 | `line.strip().split() == line.split()`. |
| PyStr.RemoveAllKeeps | pipeline.py:38 | `replace(pat, "")` only deletes characters. |
| PyStr.Without | pipeline.py:38 | Removing one character leaves none of it and keeps the count of every other character. |
| PyStr.RemoveAllOneChar | pipeline.py:38 | `replace(c, "")` for a single character deletes exactly its occurrences. |
| PyStr.RemoveAllAbsent | pipeline.py:38 | A pattern whose first character does not occur leaves the token unchanged. |
| PyStr.RemoveAllTrailing | pipeline.py:38 | A pattern appended to a token free of its first character is removed, giving back the token. |
| PyInt.DigitChar | pipeline.py:38 | The digit character for `d < 10` is an ASCII digit worth `d`. |
| PyInt.DigitCount | pipeline.py:38 | The number of digits that `int`'s length limit counts is at most the token's length. |
| PyInt.DigitCountOfDigits | pipeline.py:38 | A token made only of digits counts every character. |
| PyInt.ParseDigitsSpec | pipeline.py:38 | The digit syntax, without the length limit: an accepted string starts and ends with a digit, and holds only digits and `_`. Every non-empty run of digits has that syntax. |
| PyInt.ParseLiteralSpec | pipeline.py:38 | The literal syntax, without the length limit: an accepted token is an optional sign, then digits and `_`, ending with a digit. It is negative only after a `-`. Every non-empty run of digits has that syntax. |
| PyInt.ParseIntSpec | pipeline.py:38 | `int` accepts a token exactly when it has the literal syntax and at most 4300 digits. An accepted token ends with a digit, holds only digits, `_` and a leading sign, and reads as negative only after a `-`. Every run of 1 to 4300 digits is accepted. |
| PyInt.ShowNat | pipeline.py:38 | `str(n)` for `n >= 0` is non-empty, all digits, with no leading zero unless it is "0". |
| PyInt.ParseShowNat | pipeline.py:38 | Reading back `str(n)` with the digit syntax, before the length limit, gives `n`. |
| PyInt.ParseShowInt | pipeline.py:38 | `int(str(n)) == n` when `str(n)` has at most 4300 digits. Past that, `int` refuses `str(n)`. |
| PyPath.Basename | pipeline.py:53 | The base name is the suffix after the last "/", and holds no "/". |
| PyPath.BasenameOfJoin | pipeline.py:53 | A name without "/" placed in a directory is its own base name. |

## Left out

- Reading the file (`open`, `readlines`, iterating over a file object, UTF-8 decoding) is not modelled. A file is the sequence of its lines as text.
- `load_sample` (pipeline.py:7-10) only reads the file into a list, so it is the given `seq<string>` itself. `ProcessFile` iterates over it with `new LineStream(lines)`. The generator's laziness and memory use are not modelled, only the order in which it yields lines.
- `save_result` (pipeline.py:51-60) is left out except for the file name: `datetime.now()` becomes the `timestamp` parameter, and `os.path.join` and `json.dump` are file I/O.
- `archive_file`, `process_all_files` and the `__main__` block are filesystem side effects and orchestration. They are not modelled. `process_file` and `process_file_with_generator` are modelled up to the call to `generate_json`.
- The `print` calls become the returned `Diagnostic` log. The "Processing file" messages are not modelled.
- PyInt.ParseInt: does not accept non-ASCII Unicode digits, or the surrounding whitespace that Python's `int` strips. A field from `split()` holds no whitespace, so that second difference cannot matter. The digit limit is fixed at CPython's default of 4300. Changing it with `sys.set_int_max_str_digits`, or running on a Python older than 3.11 with no limit, is not modelled.
- PyInt.ShowInt: writes `str(n)` for every `n`, although Python's `str` also refuses more than 4300 digits. The pipeline never calls `str`. `ShowInt` serves only as the inverse of `int`.
- PyPath.Basename: POSIX paths only, where "/" is the sole separator.
