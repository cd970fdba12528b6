/** The driver of main.go: counting each named file in turn (or standard input
    when no file is named), reporting failures without stopping, merging the
    tallies of the sources that succeeded into a total, printing a total line
    when several files were named, and choosing the exit status.

    Opening a file and running the counting engine over it are not modelled;
    their results are given as data, one outcome per source. */
module Driver {
  import opened Counter
  import opened Wrappers
  import Format

  /** A failure reported by the operating system or by a read. */
  datatype IoError = IoError(message: string)

  /** What the counting engine returned for one source: either all tallies or
      an error, never both. */
  datatype CountOutcome = Counted(counts: Counts) | ReadFailed(cause: IoError)

  /** The error processReader hands back: the engine's cause together with the
      name of the source being counted. */
  datatype CountingError = CountingError(source: string, cause: IoError)

  /** What processReader returns: tallies and an optional error. */
  datatype Processed = Processed(counts: Counts, err: Option<CountingError>)

  /** One named file: either it could not be opened, or it was opened and the
      engine produced an outcome for it. */
  datatype Opening = OpenFailed(cause: IoError) | Opened(read: CountOutcome)

  datatype Source = Source(name: string, opening: Opening)

  /** A message on the error stream. */
  datatype Diagnostic =
    | OpenError(name: string, cause: IoError)
    | ProcessingError(name: string, err: CountingError)
    | StdinError(err: CountingError)

  /** One thing the program writes, in the order it writes them: an output line
      (tallies and label, laid out by Format.Render) or a diagnostic. */
  datatype Event = Printed(counts: Counts, name: string) | Reported(diag: Diagnostic)

  /** The name processReader is given for standard input. */
  const StdinName: string := "<stdin>"

  /** The label of the line that carries the sum over all files. */
  const TotalName: string := "total"

  /** Runs the counting engine's outcome through processReader's error
      handling: on failure zero tallies and a wrapped error, otherwise the
      tallies as they are and no error. */
  function ProcessReader(r: CountOutcome, sourceName: string): (p: Processed)
    ensures p.err.None? <==> r.Counted?
    ensures r.Counted? ==> p.counts == r.counts
    ensures r.ReadFailed? ==> p.counts == Zero && p.err == Some(CountingError(sourceName, r.cause))
  {
    match r
    case Counted(counts) => Processed(counts, None)
    case ReadFailed(cause) => Processed(Counts(0, 0, 0, 0), Some(CountingError(sourceName, cause)))
  }

  /* ---------------------------------------------------------------------- */
  /* Per-source reference behaviour.                                         */
  /* ---------------------------------------------------------------------- */

  /** Whether a file could not be opened or could not be counted. */
  predicate Failed(s: Source)
  {
    s.opening.OpenFailed? || s.opening.read.ReadFailed?
  }

  /** What a single file contributes to the total: its tallies when it was
      counted, nothing otherwise. */
  function Contribution(s: Source): Counts
  {
    if Failed(s) then Zero else s.opening.read.counts
  }

  /** The one event a file produces: its line, or the reason it was skipped. */
  function Attempt(s: Source): Event
  {
    match s.opening
    case OpenFailed(cause) => Reported(OpenError(s.name, cause))
    case Opened(read) =>
      match read
      case Counted(counts) => Printed(counts, s.name)
      case ReadFailed(cause) => Reported(ProcessingError(s.name, CountingError(s.name, cause)))
  }

  /** The events of the files, one per file, in the order given. */
  function Attempts(files: seq<Source>): (r: seq<Event>)
    ensures |r| == |files|
  {
    if |files| == 0 then [] else Attempts(files[..|files| - 1]) + [Attempt(files[|files| - 1])]
  }

  /** The sum, field by field, of what the files contribute. */
  function Total(files: seq<Source>): Counts
  {
    if |files| == 0 then Zero else Add(Total(files[..|files| - 1]), Contribution(files[|files| - 1]))
  }

  predicate AnyFailed(files: seq<Source>)
  {
    exists i :: 0 <= i < |files| && Failed(files[i])
  }

  /* ---------------------------------------------------------------------- */
  /* The program.                                                            */
  /* ---------------------------------------------------------------------- */

  /** The body of main once the flags are parsed. With no file named,
      standard input gives one unlabelled line or one diagnostic, and never a
      total. Otherwise every file gives one event, in the order named, so a
      failure never stops the files after it; a total line follows when more
      than one file was named. The status is 1 exactly when something failed. */
  method RunFiles(files: seq<Source>, stdin: CountOutcome) returns (events: seq<Event>, exitCode: int)
    ensures exitCode == 0 || exitCode == 1
    ensures |files| == 0 && stdin.Counted? ==>
              events == [Printed(stdin.counts, "")] && exitCode == 0
    ensures |files| == 0 && stdin.ReadFailed? ==>
              events == [Reported(StdinError(CountingError(StdinName, stdin.cause)))] && exitCode == 1
    ensures |files| > 0 ==> |events| == |files| + (if |files| > 1 then 1 else 0)
    ensures |files| > 0 ==> events[..|files|] == Attempts(files)
    ensures |files| > 1 ==> events[|files|] == Printed(Total(files), TotalName)
    ensures |files| > 0 ==> (exitCode == 1 <==> AnyFailed(files))
  {
    if |files| == 0 {
      events, exitCode := CountStdin(stdin);
    } else {
      events, exitCode := CountFiles(files);
    }
  }

  /** Standard input: counted and printed without a label, or reported. */
  method CountStdin(stdin: CountOutcome) returns (events: seq<Event>, exitCode: int)
    ensures stdin.Counted? ==> events == [Printed(stdin.counts, "")] && exitCode == 0
    ensures stdin.ReadFailed? ==>
              events == [Reported(StdinError(CountingError(StdinName, stdin.cause)))] && exitCode == 1
  {
    // The tallies of standard input are merged into a total that is never
    // printed (main.go:37); the merge is kept to follow the program.
    var total := Zero;
    var p := ProcessReader(stdin, StdinName);
    if p.err.Some? {
      events := [Reported(StdinError(p.err.value))];
      exitCode := 1;
    } else {
      events := [Printed(p.counts, "")];
      exitCode := 0;
      total := Add(total, p.counts);
    }
  }

  /** One named file: opened and counted, or skipped with a diagnostic. The
      event, the tallies merged into the total and the failure flag agree with
      the reference behaviour of a single file. */
  method CountFile(f: Source) returns (event: Event, counts: Counts, failed: bool)
    ensures event == Attempt(f)
    ensures counts == Contribution(f)
    ensures failed <==> Failed(f)
  {
    match f.opening {
      case OpenFailed(cause) =>
        event, counts, failed := Reported(OpenError(f.name, cause)), Zero, true;
      case Opened(read) =>
        var p := ProcessReader(read, f.name);
        if p.err.Some? {
          event, counts, failed := Reported(ProcessingError(f.name, p.err.value)), Zero, true;
        } else {
          event, counts, failed := Printed(p.counts, f.name), p.counts, false;
        }
    }
  }

  /** The named files in turn, then the total line when there are several. */
  method CountFiles(files: seq<Source>) returns (events: seq<Event>, exitCode: int)
    ensures exitCode == 0 || exitCode == 1
    ensures |events| == |files| + (if |files| > 1 then 1 else 0)
    ensures events[..|files|] == Attempts(files)
    ensures |files| > 1 ==> events[|files|] == Printed(Total(files), TotalName)
    ensures exitCode == 1 <==> AnyFailed(files)
  {
    var total := Zero;
    exitCode := 0;
    events := [];
    var i := 0;
    while i < |files|
      invariant 0 <= i <= |files|
      invariant events == Attempts(files[..i])
      invariant total == Total(files[..i])
      invariant exitCode == 0 || exitCode == 1
      invariant exitCode == 1 <==> AnyFailed(files[..i])
    {
      PrefixStep(files, i);
      var event, counts, failed := CountFile(files[i]);
      events := events + [event];
      total := Add(total, counts);
      if failed {
        exitCode := 1;
      }
      i := i + 1;
    }
    assert files[..i] == files;
    if |files| > 1 {
      events := events + [Printed(total, TotalName)];
    }
  }

  /** How the reference behaviour of a prefix of the files grows by one file. */
  lemma PrefixStep(files: seq<Source>, i: nat)
    requires i < |files|
    ensures Attempts(files[..i + 1]) == Attempts(files[..i]) + [Attempt(files[i])]
    ensures Total(files[..i + 1]) == Add(Total(files[..i]), Contribution(files[i]))
    ensures AnyFailed(files[..i + 1]) <==> AnyFailed(files[..i]) || Failed(files[i])
  {
    var p := files[..i + 1];
    assert p[..i] == files[..i];
    assert p[i] == files[i];
    if AnyFailed(files[..i]) {
      var j :| 0 <= j < i && Failed(files[..i][j]);
      assert Failed(p[j]);
    }
    if Failed(files[i]) {
      assert Failed(p[i]);
    }
  }

  /* ---------------------------------------------------------------------- */
  /* Properties of the reference behaviour.                                  */
  /* ---------------------------------------------------------------------- */

  /** Tallies of the printed per-file lines, summed field by field. */
  function PrintedSum(events: seq<Event>): Counts
  {
    if |events| == 0 then Zero
    else
      var last := events[|events| - 1];
      Add(PrintedSum(events[..|events| - 1]), if last.Printed? then last.counts else Zero)
  }

  /** Number of output lines among the events. */
  function PrintedCount(events: seq<Event>): (n: nat)
    ensures n <= |events|
  {
    if |events| == 0 then 0
    else PrintedCount(events[..|events| - 1]) + (if events[|events| - 1].Printed? then 1 else 0)
  }

  /** The total line carries exactly the sum of the file lines printed above
      it: failed files add nothing to either. */
  lemma {:induction false} TotalIsSumOfPrintedLines(files: seq<Source>)
    ensures PrintedSum(Attempts(files)) == Total(files)
    decreases |files|
  {
    if |files| > 0 {
      var n := |files| - 1;
      var init := files[..n];
      var a := Attempts(files);
      assert files[..n + 1] == files;
      PrefixStep(files, n);
      assert a[..n] == Attempts(init);
      assert a[n] == Attempt(files[n]);
      TotalIsSumOfPrintedLines(init);
      var e := Attempt(files[n]);
      assert (if e.Printed? then e.counts else Zero) == Contribution(files[n]);
    }
  }

  /** Every named file gets its own output line exactly when none of them
      failed, that is, exactly when the exit status is 0. */
  lemma {:induction false} AllPrintedIffNoneFailed(files: seq<Source>)
    ensures PrintedCount(Attempts(files)) == |files| <==> !AnyFailed(files)
    decreases |files|
  {
    if |files| > 0 {
      var n := |files| - 1;
      var init := files[..n];
      var a := Attempts(files);
      assert files[..n + 1] == files;
      PrefixStep(files, n);
      assert a[..n] == Attempts(init);
      assert a[n] == Attempt(files[n]);
      assert PrintedCount(a) == PrintedCount(Attempts(init)) + (if a[n].Printed? then 1 else 0);
      assert a[n].Printed? <==> !Failed(files[n]);
      AllPrintedIffNoneFailed(init);
    }
  }

  /** Merging is additive over consecutive groups of files. */
  lemma {:induction false} TotalAppend(a: seq<Source>, b: seq<Source>)
    ensures Total(a + b) == Add(Total(a), Total(b))
    decreases |b|
  {
    if |b| == 0 {
      assert a + b == a;
      AddLaws(Total(a), Zero, Zero);
    } else {
      var b' := b[..|b| - 1];
      var x := b[|b| - 1];
      assert (a + b)[..|a + b| - 1] == a + b';
      assert (a + b)[|a + b| - 1] == x;
      TotalAppend(a, b');
      AddLaws(Total(a), Total(b'), Contribution(x));
    }
  }

  /** A file that fails, wherever it stands, leaves the total as it would be
      without it. */
  lemma FailedSourceAddsNothing(a: seq<Source>, s: Source, b: seq<Source>)
    requires Failed(s)
    ensures Total(a + [s] + b) == Total(a + b)
  {
    TotalAppend(a + [s], b);
    TotalAppend(a, [s]);
    TotalAppend(a, b);
    assert [s][..0] == [];
    AddLaws(Zero, Zero, Zero);
    assert Total([s]) == Zero;
    AddLaws(Total(a), Zero, Zero);
  }

  /** The total of the files is the total of the same files in reverse order.
      This is one case of TotalPermutation, kept for reading: its proof needs
      only TotalAppend and no multiset reasoning. */
  lemma {:induction false} TotalReverse(files: seq<Source>)
    ensures Total(Reverse(files)) == Total(files)
    decreases |files|
  {
    if |files| > 0 {
      var init := files[..|files| - 1];
      var last := files[|files| - 1];
      assert Reverse(files) == [last] + Reverse(init);
      TotalAppend([last], Reverse(init));
      TotalReverse(init);
      assert [last][..0] == [];
    }
  }

  /** Taking one file out of the list takes exactly its contribution out of
      the total. */
  lemma TotalRemove(b: seq<Source>, j: nat)
    requires j < |b|
    ensures Total(b) == Add(Total(b[..j] + b[j + 1..]), Contribution(b[j]))
  {
    var l, x, r := b[..j], b[j], b[j + 1..];
    assert b == (l + [x]) + r;
    assert (l + [x])[..|l|] == l;
    TotalAppend(l + [x], r);
    TotalAppend(l, r);
    AddSwap(Total(l), Contribution(x), Total(r));
  }

  lemma AddSwap(p: Counts, q: Counts, s: Counts)
    ensures Add(Add(p, q), s) == Add(Add(p, s), q)
  {
  }

  /** The total does not depend on the order in which the files are merged:
      any two lists holding the same files have the same total. */
  lemma {:induction false} TotalPermutation(a: seq<Source>, b: seq<Source>)
    requires multiset(a) == multiset(b)
    ensures Total(a) == Total(b)
    decreases |a|
  {
    if |a| == 0 {
      assert |b| == |multiset(b)| == 0;
    } else {
      var n := |a| - 1;
      var j := IndexOf(b, a[n]);
      MultisetRemove(a, n);
      MultisetRemove(b, j);
      assert a[..n] + a[n + 1..] == a[..n];
      TotalPermutation(a[..n], b[..j] + b[j + 1..]);
      TotalRemove(b, j);
    }
  }

  /** A position at which x occurs in s. */
  function IndexOf(s: seq<Source>, x: Source): (j: nat)
    requires x in multiset(s)
    ensures j < |s| && s[j] == x
  {
    if s[0] == x then 0 else IndexOf(s[1..], x) + 1
  }

  lemma MultisetRemove(s: seq<Source>, j: nat)
    requires j < |s|
    ensures multiset(s[..j] + s[j + 1..]) == multiset(s) - multiset{s[j]}
  {
    assert s == s[..j] + [s[j]] + s[j + 1..];
  }

  function Reverse(s: seq<Source>): (r: seq<Source>)
    ensures |r| == |s|
  {
    if |s| == 0 then [] else [s[|s| - 1]] + Reverse(s[..|s| - 1])
  }

  /* ---------------------------------------------------------------------- */
  /* The text written to standard output.                                    */
  /* ---------------------------------------------------------------------- */

  /** Newlines inside the labels of the printed lines (file names may hold
      them). */
  function LabelNewlines(events: seq<Event>): nat
  {
    if |events| == 0 then 0
    else
      var last := events[|events| - 1];
      LabelNewlines(events[..|events| - 1])
      + (if last.Printed? then Format.NewlineCount(last.name) else 0)
  }

  /** The text one event puts on standard output: a printed event writes its
      line; a diagnostic goes to the error stream and writes nothing here. */
  function EventText(e: Event, opts: CounterOptions): (t: string)
    ensures Format.NewlineCount(t) == (if e.Printed? then Format.NewlineCount(e.name) + 1 else 0)
  {
    if e.Printed? then
      Format.RenderNewlines(e.counts, opts, e.name);
      Format.Render(e.counts, opts, e.name)
    else
      ""
  }

  /** The output stream: the text of the events laid out one after the
      other. */
  function Stdout(events: seq<Event>, opts: CounterOptions): (out: string)
    ensures Format.NewlineCount(out) == PrintedCount(events) + LabelNewlines(events)
  {
    if |events| == 0 then ""
    else
      var init := Stdout(events[..|events| - 1], opts);
      var text := EventText(events[|events| - 1], opts);
      Format.NewlineCountAppend(init, text);
      init + text
  }

  /** The output of consecutive groups of events is the output of the first
      group followed by that of the second. */
  lemma {:induction false} StdoutAppend(a: seq<Event>, b: seq<Event>, opts: CounterOptions)
    ensures Stdout(a + b, opts) == Stdout(a, opts) + Stdout(b, opts)
    decreases |b|
  {
    if |b| == 0 {
      assert a + b == a;
    } else {
      var b' := b[..|b| - 1];
      var e := b[|b| - 1];
      assert (a + b)[..|a + b| - 1] == a + b';
      assert (a + b)[|a + b| - 1] == e;
      StdoutAppend(a, b', opts);
      Format.AppendAssoc(Stdout(a, opts), Stdout(b', opts), EventText(e, opts));
    }
  }

  /** A diagnostic, wherever it occurs among the events, leaves the output
      stream exactly as it would be without it. */
  lemma DiagnosticLeavesNoText(a: seq<Event>, d: Diagnostic, b: seq<Event>, opts: CounterOptions)
    ensures Stdout(a + [Reported(d)] + b, opts) == Stdout(a + b, opts)
  {
    StdoutAppend(a + [Reported(d)], b, opts);
    StdoutAppend(a, [Reported(d)], opts);
    StdoutAppend(a, b, opts);
    DiagnosticText(d, opts);
    Format.EmptyRightUnit(Stdout(a, opts));
  }

  lemma DiagnosticText(d: Diagnostic, opts: CounterOptions)
    ensures Stdout([Reported(d)], opts) == ""
  {
    assert [Reported(d)][..0] == [];
  }
}
