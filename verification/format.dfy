/** The output line of main.go's printCounts: which tallies are shown, in which
    order, how each one is right-aligned (the `%7d` and `%8d` verbs), and how
    the name and the line end are added. Alongside it, a reader for such a
    line, which serves as the partner of the printer. */
module Format {
  import opened Counter
  import opened Wrappers

  /** One column of the output line. */
  datatype Metric = Lines | Words | Bytes | Chars

  /* ---------------------------------------------------------------------- */
  /* Decimal notation of a natural number, as the `%d` verb writes it.       */
  /* ---------------------------------------------------------------------- */

  predicate IsDigit(ch: char)
  {
    '0' <= ch <= '9'
  }

  predicate AllDigits(s: string)
  {
    forall i :: 0 <= i < |s| ==> IsDigit(s[i])
  }

  function DigitChar(d: nat): (ch: char)
    requires d < 10
    ensures IsDigit(ch)
  {
    (('0' as int) + d) as char
  }

  function DigitValue(ch: char): (d: nat)
    requires IsDigit(ch)
    ensures d < 10 && DigitChar(d) == ch
  {
    (ch as int) - ('0' as int)
  }

  function Pow10(k: nat): (p: nat)
    ensures p >= 1
  {
    if k == 0 then 1 else 10 * Pow10(k - 1)
  }

  /** The decimal digits of n, most significant first, without leading zeros. */
  function Decimal(n: nat): (r: string)
    ensures |r| >= 1 && AllDigits(r)
    ensures r[0] == '0' <==> n == 0
    ensures n == 0 ==> |r| == 1
    decreases n
  {
    if n < 10 then [DigitChar(n)] else Decimal(n / 10) + [DigitChar(n % 10)]
  }

  /** Reads a non-empty string of decimal digits; anything else is rejected. */
  function ReadNumber(d: string): Option<nat>
  {
    if |d| == 0 || !IsDigit(d[|d| - 1]) then None
    else if |d| == 1 then Some(DigitValue(d[0]))
    else
      match ReadNumber(d[..|d| - 1])
      case None => None
      case Some(v) => Some(10 * v + DigitValue(d[|d| - 1]))
  }

  /** Reading back what Decimal writes gives the original number. */
  lemma {:induction false} DecimalRoundTrip(n: nat)
    ensures ReadNumber(Decimal(n)) == Some(n)
    decreases n
  {
    if n >= 10 {
      var p := Decimal(n / 10);
      var r := Decimal(n);
      assert r == p + [DigitChar(n % 10)];
      assert r[..|r| - 1] == p;
      DecimalRoundTrip(n / 10);
    }
  }

  /** A number takes at most k digits exactly when it is below 10^k. */
  lemma {:induction false} DecimalLength(n: nat, k: nat)
    requires k >= 1
    ensures |Decimal(n)| <= k <==> n < Pow10(k)
    decreases n
  {
    if n >= 10 {
      assert |Decimal(n)| == |Decimal(n / 10)| + 1;
      if k > 1 {
        DecimalLength(n / 10, k - 1);
      } else {
        assert |Decimal(n / 10)| >= 1;
      }
    }
  }

  /* ---------------------------------------------------------------------- */
  /* Right alignment.                                                        */
  /* ---------------------------------------------------------------------- */

  function Spaces(k: nat): (r: string)
    ensures |r| == k && forall i :: 0 <= i < k ==> r[i] == ' '
  {
    seq(k, _ => ' ')
  }

  /** s right-aligned in a field of at least `width` characters: spaces are
      added in front, and s itself is never cut. */
  function PadLeft(s: string, width: nat): (r: string)
    ensures |r| == if |s| >= width then |s| else width
    ensures r[|r| - |s|..] == s
    ensures forall i :: 0 <= i < |r| - |s| ==> r[i] == ' '
  {
    if |s| >= width then s else Spaces(width - |s|) + s
  }

  /** Drops the leading spaces of a field. */
  function Unpad(t: string): (r: string)
    ensures |r| <= |t| && r == t[|t| - |r|..]
    ensures |r| == 0 || r[0] != ' '
    ensures forall i :: 0 <= i < |t| - |r| ==> t[i] == ' '
  {
    if |t| > 0 && t[0] == ' ' then Unpad(t[1..]) else t
  }

  lemma {:induction false} UnpadSpaces(k: nat, d: string)
    requires |d| == 0 || d[0] != ' '
    ensures Unpad(Spaces(k) + d) == d
    decreases k
  {
    if k > 0 {
      assert (Spaces(k) + d)[1..] == Spaces(k - 1) + d;
      UnpadSpaces(k - 1, d);
    } else {
      assert Spaces(k) + d == d;
    }
  }

  /** Reads one right-aligned number. */
  function ParseField(t: string): Option<nat>
  {
    ReadNumber(Unpad(t))
  }

  /* ---------------------------------------------------------------------- */
  /* Columns.                                                                */
  /* ---------------------------------------------------------------------- */

  /** Position of a column on the line; bytes and characters share the last
      position because at most one of them is ever shown. */
  function Rank(m: Metric): nat
  {
    match m
    case Lines => 0
    case Words => 1
    case Bytes => 2
    case Chars => 2
  }

  /** Minimum width of a column: 7 for lines, 8 for the others. */
  function Width(m: Metric): nat
  {
    if m == Lines then 7 else 8
  }

  function Value(c: Counts, m: Metric): nat
  {
    match m
    case Lines => c.lines
    case Words => c.words
    case Bytes => c.bytes
    case Chars => c.chars
  }

  /** Strictly increasing by rank, hence also without repetitions. */
  predicate Ordered(s: seq<Metric>)
  {
    forall i, j :: 0 <= i < j < |s| ==> Rank(s[i]) < Rank(s[j])
  }

  /** The columns printCounts writes for the given options, left to right. */
  function Columns(o: CounterOptions): (r: seq<Metric>)
    ensures Ordered(r)
    ensures Normalized(o) ==> |r| >= 1
  {
    (if o.lines then [Lines] else [])
    + (if o.words then [Words] else [])
    + (if o.chars then [Chars] else if o.bytes then [Bytes] else [])
  }

  /** Which columns appear: lines iff asked, words iff asked, characters iff
      asked, and bytes iff asked without characters. */
  lemma ColumnsShown(o: CounterOptions)
    ensures Lines in Columns(o) <==> o.lines
    ensures Words in Columns(o) <==> o.words
    ensures Chars in Columns(o) <==> o.chars
    ensures Bytes in Columns(o) <==> o.bytes && !o.chars
  {
  }

  lemma OrderedFirst(s: seq<Metric>, k: nat)
    requires Ordered(s) && k < |s|
    ensures Rank(s[0]) <= Rank(s[k])
    ensures k > 0 ==> Rank(s[0]) < Rank(s[k])
  {
  }

  lemma OrderedTail(s: seq<Metric>)
    requires Ordered(s) && |s| > 0
    ensures Ordered(s[1..])
    ensures forall m :: m in s[1..] <==> m in s && m != s[0]
  {
    forall m
      ensures m in s[1..] <==> m in s && m != s[0]
    {
      if m in s[1..] {
        var k :| 0 <= k < |s| - 1 && s[1..][k] == m;
        OrderedFirst(s, k + 1);
      }
      if m in s && m != s[0] {
        var k :| 0 <= k < |s| && s[k] == m;
        assert s[1..][k - 1] == m;
      }
    }
  }

  lemma EmptyIffNoMembers(s: seq<Metric>)
    ensures |s| == 0 <==> forall m :: m !in s
  {
    if |s| > 0 {
      assert s[0] in s;
    }
  }

  /** Two non-empty ordered lists with the same members start alike. */
  lemma SameFirst(a: seq<Metric>, b: seq<Metric>)
    requires Ordered(a) && Ordered(b) && |a| > 0 && |b| > 0
    requires forall m :: m in a <==> m in b
    ensures a[0] == b[0]
  {
    assert a[0] in b;
    var j :| 0 <= j < |b| && b[j] == a[0];
    assert b[0] in a;
    var i :| 0 <= i < |a| && a[i] == b[0];
    OrderedFirst(a, i);
    OrderedFirst(b, j);
  }

  lemma SameHeadTail(a: seq<Metric>, b: seq<Metric>)
    requires |a| > 0 && |b| > 0 && a[0] == b[0] && a[1..] == b[1..]
    ensures a == b
  {
    assert a == [a[0]] + a[1..];
    assert b == [b[0]] + b[1..];
  }

  /** Two ordered column lists with the same members are the same list. */
  lemma {:induction false} OrderedSameMembers(a: seq<Metric>, b: seq<Metric>)
    requires Ordered(a) && Ordered(b)
    requires forall m :: m in a <==> m in b
    ensures a == b
    decreases |a|
  {
    EmptyIffNoMembers(a);
    EmptyIffNoMembers(b);
    if |a| > 0 {
      SameFirst(a, b);
      OrderedTail(a);
      OrderedTail(b);
      OrderedSameMembers(a[1..], b[1..]);
      SameHeadTail(a, b);
    }
  }

  /** The column choice of printCounts is the only left-to-right layout that
      shows lines iff asked, words iff asked, characters iff asked and bytes
      iff asked without characters. */
  lemma ColumnsUnique(o: CounterOptions, s: seq<Metric>)
    requires Ordered(s)
    requires Lines in s <==> o.lines
    requires Words in s <==> o.words
    requires Chars in s <==> o.chars
    requires Bytes in s <==> o.bytes && !o.chars
    ensures s == Columns(o)
  {
    var r := Columns(o);
    ColumnsShown(o);
    forall m ensures m in s <==> m in r {
      match m
      case Lines =>
      case Words =>
      case Bytes =>
      case Chars =>
    }
    OrderedSameMembers(s, r);
  }

  /* ---------------------------------------------------------------------- */
  /* The output line.                                                        */
  /* ---------------------------------------------------------------------- */

  /** Whether the value of column m is narrow enough for its minimum width. */
  predicate FitsWidth(c: Counts, m: Metric)
  {
    Value(c, m) < Pow10(Width(m))
  }

  /** Number of newline characters in s. */
  function NewlineCount(s: string): nat
  {
    multiset(s)['\n']
  }

  lemma NewlineCountAppend(a: string, b: string)
    ensures NewlineCount(a + b) == NewlineCount(a) + NewlineCount(b)
  {
    assert multiset(a + b) == multiset(a) + multiset(b);
  }

  /** The facts about a right-aligned decimal that Field promises. */
  lemma PaddedDecimal(n: nat, w: nat)
    requires w >= 1
    ensures var r := PadLeft(Decimal(n), w);
            && |r| >= w
            && (forall i :: 0 <= i < |r| ==> IsDigit(r[i]) || r[i] == ' ')
            && NewlineCount(r) == 0
            && (n < Pow10(w) <==> |r| == w)
  {
    DecimalLength(n, w);
    PadLeftChars(Decimal(n), w);
    NoNewline(PadLeft(Decimal(n), w));
  }

  lemma PadLeftChars(s: string, w: nat)
    requires AllDigits(s)
    ensures var r := PadLeft(s, w);
            forall i :: 0 <= i < |r| ==> IsDigit(r[i]) || r[i] == ' '
  {
    var r := PadLeft(s, w);
    forall i | 0 <= i < |r|
      ensures IsDigit(r[i]) || r[i] == ' '
    {
      if i >= |r| - |s| {
        assert r[i] == r[|r| - |s|..][i - (|r| - |s|)];
      }
    }
  }

  lemma NoNewline(r: string)
    requires forall i :: 0 <= i < |r| ==> IsDigit(r[i]) || r[i] == ' '
    ensures NewlineCount(r) == 0
  {
    assert '\n' !in r;
  }

  lemma PadLeftLayout(s: string, w: nat)
    ensures PadLeft(s, w) == Spaces(|PadLeft(s, w)| - |s|) + s
  {
    if |s| >= w {
      assert Spaces(0) + s == s;
    }
  }

  lemma ReadPaddedDecimal(n: nat, w: nat)
    ensures ParseField(PadLeft(Decimal(n), w)) == Some(n)
  {
    var d := Decimal(n);
    var r := PadLeft(d, w);
    PadLeftLayout(d, w);
    UnpadSpaces(|r| - |d|, d);
    assert Unpad(r) == d;
    DecimalRoundTrip(n);
  }

  /** One column as written by `%7d` or `%8d`: at least the column's width,
      only spaces and digits, and exactly the width when the tally fits. */
  function Field(c: Counts, m: Metric): (r: string)
    ensures |r| >= Width(m)
    ensures forall i :: 0 <= i < |r| ==> IsDigit(r[i]) || r[i] == ' '
    ensures NewlineCount(r) == 0
    ensures FitsWidth(c, m) <==> |r| == Width(m)
  {
    PaddedDecimal(Value(c, m), Width(m));
    PadLeft(Decimal(Value(c, m)), Width(m))
  }

  /** A column reads back as the tally it shows. */
  lemma FieldRoundTrip(c: Counts, m: Metric)
    ensures ParseField(Field(c, m)) == Some(Value(c, m))
  {
    ReadPaddedDecimal(Value(c, m), Width(m));
  }

  /** What `%7d` and `%8d` write: leading spaces, then digits with no leading
      zero (other than the single digit of 0), exactly as wide as the wider of
      the column and the digits. */
  lemma FieldText(c: Counts, m: Metric)
    ensures var r := Field(c, m);
            var d := Unpad(r);
            && |d| >= 1 && AllDigits(d)
            && (d[0] == '0' ==> |d| == 1)
            && |r| == if |d| >= Width(m) then |d| else Width(m)
  {
    var d := Decimal(Value(c, m));
    var r := PadLeft(d, Width(m));
    PadLeftLayout(d, Width(m));
    UnpadSpaces(|r| - |d|, d);
  }

  /** The shown columns written one after the other, with no separator of
      their own. */
  function Fields(c: Counts, cols: seq<Metric>): (r: string)
    ensures NewlineCount(r) == 0
    decreases |cols|
  {
    if |cols| == 0 then ""
    else
      var rest := Fields(c, cols[1..]);
      NewlineCountAppend(Field(c, cols[0]), rest);
      Field(c, cols[0]) + rest
  }

  /** What follows the columns: a space and the label, when there is a label. */
  function LabelSuffix(name: string): string
  {
    if name == "" then "" else " " + name
  }

  lemma LineNewlines(f: string, name: string)
    requires NewlineCount(f) == 0
    ensures NewlineCount(f + LabelSuffix(name) + "\n") == NewlineCount(name) + 1
  {
    NewlineCountAppend(f, LabelSuffix(name));
    NewlineCountAppend(f + LabelSuffix(name), "\n");
    if name != "" {
      NewlineCountAppend(" ", name);
    }
  }

  /** The layout of some text followed by the label, set off by a space when
      there is one, and the line end. */
  lemma LineEnd(f: string, name: string, r: string)
    requires r == f + LabelSuffix(name) + "\n"
    ensures |r| >= 1 && r[|r| - 1] == '\n'
    ensures name == "" ==> r[..|r| - 1] == f
    ensures name != "" ==> |r| >= |name| + 2 && r[|r| - |name| - 2..] == " " + name + "\n"
    ensures name != "" ==> r[..|r| - |name| - 2] == f
  {
    var t := LabelSuffix(name) + "\n";
    assert r == f + t;
    assert r[..|f|] == f && r[|f|..] == t;
    if name != "" {
      assert t == " " + name + "\n";
      assert |r| - |name| - 2 == |f|;
    } else {
      assert t == "\n";
      assert |r| - 1 == |f|;
    }
  }

  /** The line printCounts writes for one source or for the total. */
  function Render(c: Counts, o: CounterOptions, name: string): (r: string)
    ensures |r| >= 1 && r[|r| - 1] == '\n'
    ensures name == "" ==> r[..|r| - 1] == Fields(c, Columns(o))
    ensures name != "" ==> |r| >= |name| + 2 && r[|r| - |name| - 2..] == " " + name + "\n"
    ensures name != "" ==> r[..|r| - |name| - 2] == Fields(c, Columns(o))
  {
    var f := Fields(c, Columns(o));
    var r := f + LabelSuffix(name) + "\n";
    LineEnd(f, name, r);
    r
  }

  /** A printed line holds one newline more than its label: the one that ends
      it. */
  lemma RenderNewlines(c: Counts, o: CounterOptions, name: string)
    ensures NewlineCount(Render(c, o, name)) == NewlineCount(name) + 1
  {
    LineNewlines(Fields(c, Columns(o)), name);
  }

  lemma RenderLayout(c: Counts, o: CounterOptions, name: string)
    ensures Render(c, o, name) == Fields(c, Columns(o)) + (LabelSuffix(name) + "\n")
  {
    AppendAssoc(Fields(c, Columns(o)), LabelSuffix(name), "\n");
  }

  /* ---------------------------------------------------------------------- */
  /* Reading a line back.                                                    */
  /* ---------------------------------------------------------------------- */

  /** Reads the columns of a line, given which columns to expect, each taking
      exactly its minimum width. */
  function ParseFields(s: string, cols: seq<Metric>): Option<(seq<nat>, string)>
  {
    if |cols| == 0 then Some(([], s))
    else
      var w := Width(cols[0]);
      if |s| < w then None
      else
        match ParseField(s[..w])
        case None => None
        case Some(v) =>
          match ParseFields(s[w..], cols[1..])
          case None => None
          case Some(p) => Some(([v] + p.0, p.1))
  }

  /** Reads what follows the columns: nothing or a space and a label, then the
      line end. */
  function ParseLabel(rest: string): Option<string>
  {
    if |rest| == 0 || rest[|rest| - 1] != '\n' then None
    else
      var body := rest[..|rest| - 1];
      if body == "" then Some("")
      else if body[0] == ' ' then Some(body[1..])
      else None
  }

  /** Reads a whole output line back into its column values and label. */
  function ParseLine(s: string, o: CounterOptions): Option<(seq<nat>, string)>
  {
    match ParseFields(s, Columns(o))
    case None => None
    case Some(p) =>
      match ParseLabel(p.1)
      case None => None
      case Some(name) => Some((p.0, name))
  }

  /** The tallies shown in the given columns, in order. */
  function Values(c: Counts, cols: seq<Metric>): (r: seq<nat>)
    ensures |r| == |cols|
  {
    seq(|cols|, i requires 0 <= i < |cols| => Value(c, cols[i]))
  }

  lemma ParseStep(f: string, t: string, cols: seq<Metric>, v: nat, vs: seq<nat>, rest: string)
    requires |cols| > 0 && |f| == Width(cols[0])
    requires ParseField(f) == Some(v)
    requires ParseFields(t, cols[1..]) == Some((vs, rest))
    ensures ParseFields(f + t, cols) == Some(([v] + vs, rest))
  {
    assert (f + t)[..|f|] == f;
    assert (f + t)[|f|..] == t;
  }

  lemma FieldsFirst(c: Counts, cols: seq<Metric>, rest: string)
    requires |cols| > 0
    ensures Fields(c, cols) + rest == Field(c, cols[0]) + (Fields(c, cols[1..]) + rest)
  {
    AppendAssoc(Field(c, cols[0]), Fields(c, cols[1..]), rest);
  }

  lemma AppendAssoc(x: string, y: string, z: string)
    ensures (x + y) + z == x + (y + z)
  {
  }

  lemma EmptyRightUnit(x: string)
    ensures x + "" == x
  {
  }

  lemma ValuesFirst(c: Counts, cols: seq<Metric>)
    requires |cols| > 0
    ensures [Value(c, cols[0])] + Values(c, cols[1..]) == Values(c, cols)
  {
  }

  /** Columns that all fit their widths are read back in order, and what
      follows them is left over. */
  lemma {:induction false} FieldsRoundTrip(c: Counts, cols: seq<Metric>, rest: string)
    requires forall i :: 0 <= i < |cols| ==> FitsWidth(c, cols[i])
    ensures ParseFields(Fields(c, cols) + rest, cols) == Some((Values(c, cols), rest))
    decreases |cols|
  {
    if |cols| == 0 {
      assert Fields(c, cols) + rest == rest;
    } else {
      var tail := cols[1..];
      assert forall i :: 0 <= i < |tail| ==> tail[i] == cols[i + 1];
      FieldsRoundTrip(c, tail, rest);
      FieldRoundTrip(c, cols[0]);
      ParseStep(Field(c, cols[0]), Fields(c, tail) + rest, cols, Value(c, cols[0]), Values(c, tail), rest);
      FieldsFirst(c, cols, rest);
      ValuesFirst(c, cols);
    }
  }

  lemma LabelRoundTrip(name: string)
    ensures ParseLabel(LabelSuffix(name) + "\n") == Some(name)
  {
    var rest := LabelSuffix(name) + "\n";
    assert rest[..|rest| - 1] == LabelSuffix(name);
  }

  /** When every shown tally fits its column width, the printed line reads back
      as the shown tallies, in column order, and the label. */
  lemma RenderRoundTrip(c: Counts, o: CounterOptions, name: string)
    requires forall i :: 0 <= i < |Columns(o)| ==> FitsWidth(c, Columns(o)[i])
    ensures ParseLine(Render(c, o, name), o) == Some((Values(c, Columns(o)), name))
  {
    var cols := Columns(o);
    var rest := LabelSuffix(name) + "\n";
    RenderLayout(c, o, name);
    FieldsRoundTrip(c, cols, rest);
    LabelRoundTrip(name);
    ParseLineParts(Render(c, o, name), o, Values(c, cols), rest, name);
  }

  lemma ParseLineParts(s: string, o: CounterOptions, vals: seq<nat>, rest: string, name: string)
    requires ParseFields(s, Columns(o)) == Some((vals, rest))
    requires ParseLabel(rest) == Some(name)
    ensures ParseLine(s, o) == Some((vals, name))
  {
  }

  /* ---------------------------------------------------------------------- */
  /* Columns wider than their width.                                         */
  /* ---------------------------------------------------------------------- */

  lemma FieldLayout(c: Counts, m: Metric)
    ensures Field(c, m) == PadLeft(Decimal(Value(c, m)), Width(m))
  {
  }

  lemma FieldsOfTwo(c: Counts, a: Metric, b: Metric)
    ensures Fields(c, [a, b]) == Field(c, a) + Field(c, b)
  {
    assert [a, b][1..] == [b];
    assert [b][1..] == [];
    assert Fields(c, [b]) == Field(c, b) + "";
    assert Field(c, b) + "" == Field(c, b);
  }

  lemma DecimalStep(n: nat, d: nat)
    requires n >= 1 && d < 10
    ensures Decimal(10 * n + d) == Decimal(n) + [DigitChar(d)]
  {
    assert (10 * n + d) / 10 == n;
    assert (10 * n + d) % 10 == d;
  }

  /** k zero digits. */
  function Zeros(k: nat): (r: string)
    ensures |r| == k
  {
    seq(k, _ => '0')
  }

  lemma ZerosStep(k: nat)
    requires k >= 1
    ensures Zeros(k - 1) + [DigitChar(0)] == Zeros(k)
  {
  }

  lemma MulTen(n: nat, q: nat)
    ensures n * (10 * q) == 10 * (n * q)
  {
  }

  /** Multiplying by 10^k appends k zero digits. */
  lemma {:induction false} DecimalShift(n: nat, k: nat)
    requires n >= 1
    ensures Decimal(n * Pow10(k)) == Decimal(n) + Zeros(k)
    decreases k
  {
    if k == 0 {
      assert Decimal(n) + Zeros(0) == Decimal(n);
    } else {
      var m := n * Pow10(k - 1);
      MulTen(n, Pow10(k - 1));
      DecimalShift(n, k - 1);
      DecimalStep(m, 0);
      ZerosStep(k);
      AppendAssoc(Decimal(n), Zeros(k - 1), [DigitChar(0)]);
    }
  }

  lemma RenderOfLinesWords(c: Counts)
    ensures Render(c, CounterOptions(true, true, false, false), "")
            == Fields(c, [Lines, Words]) + "\n"
  {
    var o := CounterOptions(true, true, false, false);
    assert Columns(o) == [Lines, Words];
    RenderLayout(c, o, "");
    assert LabelSuffix("") + "\n" == "\n";
  }

  lemma RenderLinesWords(c: Counts)
    ensures Render(c, CounterOptions(true, true, false, false), "")
            == Field(c, Lines) + Field(c, Words) + "\n"
  {
    RenderOfLinesWords(c);
    FieldsOfTwo(c, Lines, Words);
  }

  /** A tally at least as wide as its column is printed without padding. */
  lemma WideField(c: Counts, m: Metric)
    requires |Decimal(Value(c, m))| >= Width(m)
    ensures Field(c, m) == Decimal(Value(c, m))
  {
    FieldLayout(c, m);
  }

  /** With lines and words shown, tallies too wide for their columns are
      printed as their bare digits, one after the other. */
  lemma WideLinesWords(c: Counts, o: CounterOptions)
    requires o == CounterOptions(true, true, false, false)
    requires c.lines >= Pow10(6) && c.words >= Pow10(7)
    ensures Render(c, o, "") == Decimal(c.lines) + Decimal(c.words) + "\n"
  {
    DecimalLength(c.lines, 6);
    DecimalLength(c.words, 7);
    RenderLinesWords(c);
    WideField(c, Lines);
    WideField(c, Words);
  }

  lemma Regroup(p: string, x: string, y: string, z: string)
    ensures (p + x) + (y + z) == p + (x + y + z)
  {
  }

  /** The digit strings of the two pairs of tallies are the same text. */
  lemma SameDigits(h: nat, p: nat)
    requires h >= 1 && p == Pow10(7)
    ensures Decimal(10 * h + 8) + Decimal(p) == Decimal(h) + Decimal(81 * p)
  {
    DecimalStep(h, 8);
    WordsDigits(p);
    Regroup(Decimal(h), [DigitChar(8)], [DigitChar(1)], Zeros(7));
  }

  /** The digits of 10^7 and of 81·10^7. */
  lemma WordsDigits(p: nat)
    requires p == Pow10(7)
    ensures Decimal(p) == [DigitChar(1)] + Zeros(7)
    ensures Decimal(81 * p) == [DigitChar(8)] + [DigitChar(1)] + Zeros(7)
  {
    DecimalShift(1, 7);
    DecimalShift(81, 7);
    DecimalStep(8, 1);
    assert Decimal(1) == [DigitChar(1)] && Decimal(8) == [DigitChar(8)];
  }

  /** Once a tally is wider than its column, neighbouring columns run
      together, and different tallies print the same line. With lines and
      words shown, lines 10·h + 8 with words 10^7 print exactly like lines h
      with words 81·10^7 whenever h has at least seven digits; for instance
      12345678 and 10000000 print like 1234567 and 810000000. */
  lemma WideColumnsRunTogether(h: nat, p: nat, o: CounterOptions)
    requires h >= Pow10(6) && p == Pow10(7)
    requires o == CounterOptions(true, true, false, false)
    ensures Counts(10 * h + 8, p, 0, 0) != Counts(h, 81 * p, 0, 0)
    ensures Render(Counts(10 * h + 8, p, 0, 0), o, "") == Render(Counts(h, 81 * p, 0, 0), o, "")
  {
    WideLinesWords(Counts(10 * h + 8, p, 0, 0), o);
    WideLinesWords(Counts(h, 81 * p, 0, 0), o);
    SameDigits(h, p);
  }
}
