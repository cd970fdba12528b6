# gwc — a model of the policy layer of a `wc` clone

gwc counts lines, words, bytes and characters of files or of standard input,
like `wc`. This project models, in Dafny, the logic that surrounds the counting
engine:

- **Option normalisation** (`Counter`, counter.dfy). The four command-line
  flags `-l -w -c -m` become a `CounterOptions` record. With no flag the
  defaults are lines, words and bytes. `-m` overrides `-c`. Otherwise the flags
  pass through unchanged.
- **The output line** (`Format`, format.dfy). `printCounts` chooses which
  columns appear and in what order: lines, then words, then characters or
  bytes. It right-aligns each number to at least 7 or 8 characters. It appends
  a space and the label when the label is not empty, and ends the line with a
  newline. The model writes that line as a string. A reader for such lines is
  the printer's partner: a line reads back as its tallies and label whenever
  every number fits its column.
- **The driver** (`Driver`, driver.dfy). This is the body of `main` and
  `processReader`. With no file arguments, standard input is counted and
  printed unlabelled, with no total. With files, each one is opened and counted
  in order. A failure is reported and processing goes on. Only successful
  tallies are printed and added to the total. A `total` line follows when more
  than one file was named. The exit status is 1 exactly when some source
  failed. Everything the program writes is modelled as an ordered trace of
  events: output lines and diagnostics.

Opening a file and running the counting engine are given as data: one outcome
per source (`Opening`, `CountOutcome`). The counting engine (`Count`) and
`Counts.Add` are defined outside counter.go and main.go and are not modelled
here. `Add` is assumed to add
the four tallies field by field into the accumulator. For `totalCounts.Add(counts)`
in main.go to change the total, `Add` must have a pointer receiver. The model
assumes that it does.

## Model

| member | source | states |
|---|---|---|
| `Counter.NewCounterOptions` | counter.go:21-32 | With no flag the result is lines, words and bytes without characters. With `-m` it has characters and never bytes, whatever `-c` says. With any flag, lines, words and characters equal `-l`, `-w` and `-m`. With some flag but no `-m` it is exactly the flags given. Every result reports something and never both bytes and characters. |
| `Counter.NewCounterOptionsIdempotent` | counter.go:21-32 | Feeding the fields of a result back through the normalisation returns the same record. |
| `Counter.NormalizedIsFixedPoint` | counter.go:23-31 | A record is left unchanged by normalisation if and only if it reports something and does not report both bytes and characters. |
| `Counter.NormalizedIsReachable` | counter.go:21-31 | Every such record is produced by some combination of flags, so the range of the normalisation is exactly these records. |
| `Format.Decimal` | main.go:85 | The decimal text of a count is non-empty and all digits. It starts with `0` only for zero, which is the single digit `0`. |
| `Format.DecimalRoundTrip` | main.go:85 | Reading the decimal text of a count back gives the count. |
| `Format.DecimalLength` | main.go:85-93 | For every k ≥ 1, a count has at most k digits exactly when it is below 10^k. So a column of width 7 holds counts below 10^7, and one of width 8 holds counts below 10^8. |
| `Format.PadLeft` | main.go:85-93 | Right alignment adds spaces only in front. The field is as long as the wider of the text and the width. The text is never cut. |
| `Format.Columns` | main.go:84-94 | The columns are strictly ordered: lines, then words, then bytes or characters, each at most once. Options that went through the flag normalisation always show at least one column. |
| `Format.ColumnsShown` | main.go:84-94 | The lines column appears iff lines are asked for. The words column appears iff words are. The characters column appears iff characters are. The bytes column appears iff bytes are asked for without characters. |
| `Format.ColumnsUnique` | main.go:84-94 | The column list of `printCounts` is the only ordered list with those memberships. |
| `Format.Field` | main.go:85-93 | One column is at least its width (7 for lines, 8 for the others) and holds only spaces and digits, so never a newline. It is exactly its width iff the tally fits. |
| `Format.FieldText` | main.go:85-93 | A column is leading spaces followed by the digits of the tally, with no leading zero except for the tally 0. It is exactly as wide as the wider of its width and the digits, so a tally too wide for its column gets no padding at all. |
| `Format.FieldRoundTrip` | main.go:85-93 | Stripping the leading spaces of a column and reading the digits gives back the tally it shows. |
| `Format.Render` | main.go:81-101 | A line ends in a newline. With no label, everything before the newline is the columns. With a label, the columns come first, then a space, the label and the newline. |
| `Format.RenderNewlines` | main.go:81-101 | A printed line holds exactly one more newline than its label, because the columns hold none. |
| `Format.LabelRoundTrip` | main.go:97-100 | The part after the columns reads back as the label. An empty label leaves only the newline, and a non-empty one is set off by one space. |
| `Format.FieldsRoundTrip` | main.go:84-94 | Columns that all fit their widths read back as their tallies, in order, and whatever follows them is left over untouched. |
| `Format.RenderRoundTrip` | main.go:81-101 | When every shown tally fits its column, the printed line reads back as the shown tallies, in column order, and the label. |
| `Format.WideColumnsRunTogether` | main.go:85-88 | Without that condition different tallies can print the same line. With lines and words shown, lines 10·h + 8 with words 10^7 print exactly like lines h with words 81·10^7 whenever h has at least seven digits. For example, lines 12345678 and words 10000000 print like lines 1234567 and words 810000000. |
| `Driver.ProcessReader` | main.go:71-78 | An error is returned iff counting failed. It then comes with zero tallies and wraps the cause with the source name. Otherwise the engine's tallies are returned unchanged. |
| `Driver.RunFiles` | main.go:26-65 | Standard input is read only when no file is named. Standard input yields one unlabelled line and status 0, or one diagnostic and status 1, and never a total. With files there is one event per file, in the given order, so a failure never stops the files after it. A `total` line carrying the sum of the successful files follows iff more than one file was named. The status is 1 iff some source failed to open or to be counted, and 0 otherwise. |
| `Driver.CountStdin` | main.go:29-38 | A counted standard input gives exactly one unlabelled line and status 0. A failed one gives exactly one diagnostic naming `<stdin>` with the cause, and status 1. |
| `Driver.CountFile` | main.go:41-58 | One file's event, its contribution to the total and its failure flag agree with the reference behaviour of a single file. A file that cannot be opened or counted contributes nothing and is reported. Otherwise its line is printed with its name. |
| `Driver.CountFiles` | main.go:41-64 | The events are one per file in the given order, followed by a `total` line with the sum of the successful files iff there are several. The status is 1 iff some file failed. |
| `Driver.TotalIsSumOfPrintedLines` | main.go:52-58 | The tallies in the per-file lines, summed, equal the total. Failed files add nothing to either. |
| `Driver.AllPrintedIffNoneFailed` | main.go:41-59 | Every named file gets its own output line iff no file failed. |
| `Driver.TotalAppend` | main.go:57 | The total of two consecutive groups of files is the sum of their totals. |
| `Driver.FailedSourceAddsNothing` | main.go:43-58 | Inserting a failed file anywhere leaves the total unchanged. |
| `Driver.TotalReverse` | main.go:41-59 | Merging the files in reverse order gives the same total. |
| `Driver.TotalPermutation` | main.go:41-59 | The total does not depend on the order in which the files are merged: any two lists holding the same files, counted with multiplicity, have the same total. |
| `Driver.Stdout` | main.go:29-64 | The output stream holds one newline per printed line, plus any newlines inside the labels. |
| `Driver.StdoutAppend` | main.go:29-64 | The output of two consecutive groups of events is the output of the first followed by that of the second. |
| `Driver.DiagnosticLeavesNoText` | main.go:29-58 | A diagnostic anywhere among the events leaves standard output exactly as it would be without it, since diagnostics go to the error stream. |

## Left out

- The counting engine `Count`: it is defined outside counter.go and main.go and is not modelled. Its result for each source is an input.
- `Counts.Add`: it is defined outside counter.go and main.go and is not modelled. It is taken to be field-wise addition into the accumulator, which requires a pointer receiver.
- Packages: counter.go declares `package gwc` and main.go declares `package main`, yet main.go uses `Counts`, `CounterOptions`, `NewCounterOptions` and `Count` unqualified. The model takes main.go's names to be counter.go's definitions.
- Integer width: Go's `int` tallies are unbounded naturals here. 64-bit wrap-around is not modelled, and negative tallies cannot occur.
- Go's `fmt`: `%7d` and `%8d` are modelled as decimal digits padded on the left with spaces.
- Flag parsing, `os.Open` and `Close`, `os.Exit` and the program name from `os.Args[0]` are I/O. The file list and the outcome of opening and counting each source are the inputs of `Driver.RunFiles`, which returns the events and the exit status. The options `NewCounterOptions` builds from the flags are the `opts` parameter of `Driver.Stdout` and `Format.Render`. No member ties that parameter to `NewCounterOptions`.
- File names as bytes: Go writes a label as raw bytes through `" %s"`. The model's `string` is a sequence of characters, so a file name that is not valid UTF-8 cannot be represented. Labels are copied verbatim and the columns are ASCII, so no contract depends on this.
- The text of the diagnostics is not modelled. Each diagnostic is a structured value naming the source and the cause.
- cmd/gwc/main.go only echoes its input and holds no counting logic, so it is not part of this model.
