/** The records of counter.go: the four tallies of one counting pass, the four
    metric switches, and the normalisation of the command-line flags into those
    switches. */
module Counter {

  /** The result of counting one source (or the running total of several). */
  datatype Counts = Counts(lines: nat, words: nat, bytes: nat, chars: nat)

  /** Which tallies are reported. */
  datatype CounterOptions = CounterOptions(lines: bool, words: bool, bytes: bool, chars: bool)

  /** The zero value of Counts, which is what a fresh accumulator holds. */
  const Zero: Counts := Counts(0, 0, 0, 0)

  /** The defaults used when no flag is given: lines, words and bytes. */
  const Defaults: CounterOptions := CounterOptions(true, true, true, false)

  /** Merging one source's tallies into an accumulator. The merge itself is defined
      outside counter.go and main.go; it is taken to be field-wise addition. */
  function Add(a: Counts, b: Counts): Counts
  {
    Counts(a.lines + b.lines, a.words + b.words, a.bytes + b.bytes, a.chars + b.chars)
  }

  /** Options that the flag normalisation can produce: something is reported,
      and bytes and characters are never both reported. */
  predicate Normalized(o: CounterOptions)
  {
    && (o.lines || o.words || o.bytes || o.chars)
    && !(o.bytes && o.chars)
  }

  /** Turns the raw -l, -w, -c and -m flags into the options that drive the
      output: no flag at all selects the defaults, and -m overrides -c. */
  function NewCounterOptions(l: bool, w: bool, c: bool, m: bool): (r: CounterOptions)
    // no flag: lines, words and bytes
    ensures !l && !w && !c && !m ==> r == Defaults
    // -m wins over -c, whatever -c says
    ensures m ==> r.chars && !r.bytes
    // some flag given: -l and -w pass through untouched
    ensures (l || w || c || m) ==> r.lines == l && r.words == w && r.chars == m
    // some flag given and no -m: exactly the flags as given
    ensures (l || w || c) && !m ==> r == CounterOptions(l, w, c, false)
    ensures Normalized(r)
  {
    if !l && !w && !c && !m then
      CounterOptions(true, true, true, false)
    else
      var c' := if m then false else c;
      CounterOptions(l, w, c', m)
  }

  /** Normalising the options' own fields again changes nothing. */
  lemma NewCounterOptionsIdempotent(l: bool, w: bool, c: bool, m: bool)
    ensures var o := NewCounterOptions(l, w, c, m);
            NewCounterOptions(o.lines, o.words, o.bytes, o.chars) == o
  {
    NormalizedIsFixedPoint(NewCounterOptions(l, w, c, m));
  }

  /** The options left unchanged by normalisation are exactly the normalised
      ones; together with the postcondition of NewCounterOptions this says that
      its range is precisely the set of Normalized options. */
  lemma NormalizedIsFixedPoint(o: CounterOptions)
    ensures NewCounterOptions(o.lines, o.words, o.bytes, o.chars) == o <==> Normalized(o)
  {
    if Normalized(o) {
      if o.chars {
        assert !o.bytes;
      }
    }
  }

  /** Every normalised option value is produced by some choice of flags, namely
      by passing its own fields. */
  lemma NormalizedIsReachable(o: CounterOptions)
    requires Normalized(o)
    ensures exists l, w, c, m :: NewCounterOptions(l, w, c, m) == o
  {
    NormalizedIsFixedPoint(o);
  }

  /** Field-wise addition has the zero record as identity and does not depend
      on the order in which sources are merged. */
  lemma AddLaws(a: Counts, b: Counts, c: Counts)
    ensures Add(a, Zero) == a && Add(Zero, a) == a
    ensures Add(a, b) == Add(b, a)
    ensures Add(Add(a, b), c) == Add(a, Add(b, c))
  {
  }
}
