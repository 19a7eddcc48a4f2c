/** The period generator gerar_periodos and the MMAAAA split in front of it.
    A calendar month is handled through its index 12 * year + month - 1, which
    stands in for datetime(year, month, 1) and relativedelta(months=1). */
module Periods {
  import opened Runtime
  import opened Text

  const MinYear := 1     // datetime.MINYEAR
  const MaxYear := 9999  // datetime.MAXYEAR

  /** One generated period, as gerar_periodos appends it: (f"{month:02d}", str(year)). */
  datatype Period = Period(mes: string, ano: string)

  function MonthIndex(year: int, month: int): int { 12 * year + month - 1 }

  /** datetime(year, month, 1) accepts exactly these. */
  predicate ValidDate(year: int, month: int) { MinYear <= year <= MaxYear && 1 <= month <= 12 }

  /** December 9999: adding one month to it raises. */
  const LastIndex := MonthIndex(MaxYear, 12)

  /** The period of month index k. */
  function PeriodAt(k: nat): Period { Period(Pad2(k % 12 + 1), DecimalString(k / 12)) }

  /** The months with indices s to e, inclusive, in order; empty when s > e. */
  function Span(s: nat, e: int): seq<Period>
  {
    seq(if s <= e then e - s + 1 else 0, i requires 0 <= i => PeriodAt(s + i))
  }

  /** The month indices of the first and last period, or the ValueError that int()
      or datetime() raise before the loop starts. */
  function Bounds(mesInicio: string, anoInicio: string, mesFim: string, anoFim: string): (r: Result<(nat, nat)>)
    ensures r.Ok? ==> r.value.0 <= LastIndex && r.value.1 <= LastIndex
  {
    var ys, ms, ye, me := ParseInt(anoInicio), ParseInt(mesInicio), ParseInt(anoFim), ParseInt(mesFim);
    if ys.None? || ms.None? || ye.None? || me.None? then Err(ValueError)
    else if !ValidDate(ys.value, ms.value) || !ValidDate(ye.value, me.value) then Err(ValueError)
    else Ok((MonthIndex(ys.value, ms.value), MonthIndex(ye.value, me.value)))
  }

  /** The loop from month s to month e: every month in between, or the ValueError
      raised when it steps past December 9999. */
  function Walk(s: nat, e: nat): Result<seq<Period>>
  {
    if s <= e && e == LastIndex then Err(ValueError) else Ok(Span(s, e))
  }

  /** What gerar_periodos(mes_inicio, ano_inicio, mes_fim, ano_fim) returns, or
      the exception it raises. */
  function Periodos(mesInicio: string, anoInicio: string, mesFim: string, anoFim: string): Result<seq<Period>>
  {
    match Bounds(mesInicio, anoInicio, mesFim, anoFim)
    case Err(x) => Err(x)
    case Ok((s, e)) => Walk(s, e)
  }

  /** gerar_periodos: the two datetime() calls, then the loop. */
  method GerarPeriodos(mesInicio: string, anoInicio: string, mesFim: string, anoFim: string)
    returns (r: Result<seq<Period>>)
    ensures r == Periodos(mesInicio, anoInicio, mesFim, anoFim)
  {
    var b := Bounds(mesInicio, anoInicio, mesFim, anoFim);
    if b.Err? {
      return Err(b.error);
    }
    var (inicio, fim) := b.value;
    r := Meses(inicio, fim);
  }

  /** The while loop of gerar_periodos: append the current month, advance it by one. */
  method Meses(inicio: nat, fim: nat) returns (r: Result<seq<Period>>)
    requires inicio <= LastIndex && fim <= LastIndex
    ensures r == Walk(inicio, fim)
  {
    var periodos: seq<Period> := [];
    var atual := inicio;
    while atual <= fim
      invariant inicio <= atual && (atual <= fim + 1 || atual == inicio)
      invariant atual <= LastIndex
      invariant periodos == Span(inicio, atual - 1)
      decreases fim - atual
    {
      periodos := periodos + [PeriodAt(atual)];
      if atual == LastIndex {
        return Err(ValueError);
      }
      atual := atual + 1;
    }
    return Ok(periodos);
  }

  // ------------------------------------------------------------ read back

  /** The month index a period's digit strings spell; None when either is not a
      non-empty string of decimal digits. */
  function IndexOf(p: Period): Option<int>
  {
    if |p.ano| > 0 && IsDigits(p.ano) && |p.mes| > 0 && IsDigits(p.mes)
    then Some(MonthIndex(Value(p.ano), Value(p.mes)))
    else None
  }

  /** A month and year written the way gerar_periodos writes them read back as that month. */
  lemma ReadBack(y: nat, m: nat)
    requires 1 <= m <= 12
    ensures IndexOf(Period(Pad2(m), DecimalString(y))) == Some(MonthIndex(y, m))
    ensures |Pad2(m)| == 2
  {
    ValueOfPad2(m);
    ValueOfDecimal(y);
    Pad2Length(m);
  }

  lemma IndexOfPeriodAt(k: nat)
    ensures IndexOf(PeriodAt(k)) == Some(k)
    ensures |PeriodAt(k).mes| == 2
  {
    var y, m := k / 12, k % 12 + 1;
    ReadBack(y, m);
    assert MonthIndex(y, m) == k;
  }

  /** The months of a span read back as consecutive indices from s, each month
      two digits long. */
  lemma {:induction false} SpanReadBack(s: nat, e: int)
    ensures var ps := Span(s, e);
      forall i :: 0 <= i < |ps| ==> IndexOf(ps[i]) == Some(s + i) && |ps[i].mes| == 2
  {
    var ps := Span(s, e);
    forall i | 0 <= i < |ps|
      ensures IndexOf(ps[i]) == Some(s + i) && |ps[i].mes| == 2
    {
      IndexOfPeriodAt(s + i);
    }
  }

  /** Periods that read back as consecutive indices are in increasing order and distinct. */
  lemma IncreasingDistinct(ps: seq<Period>, s: int)
    requires forall i :: 0 <= i < |ps| ==> IndexOf(ps[i]) == Some(s + i)
    ensures forall i, j :: 0 <= i < j < |ps| ==> IndexOf(ps[i]).value < IndexOf(ps[j]).value
    ensures forall i, j :: 0 <= i < j < |ps| ==> ps[i] != ps[j]
  {
    forall i, j | 0 <= i < j < |ps|
      ensures ps[i] != ps[j]
    {
      assert IndexOf(ps[i]) != IndexOf(ps[j]);
    }
  }

  lemma SpanFirst(s: nat, e: int)
    requires s <= e
    ensures IndexOf(Span(s, e)[0]) == Some(s)
  {
    IndexOfPeriodAt(s);
  }

  lemma SpanLast(s: nat, e: int)
    requires s <= e
    ensures IndexOf(Span(s, e)[e - s]) == Some(e)
  {
    IndexOfPeriodAt(e);
    assert Span(s, e)[e - s] == PeriodAt(e);
  }

  /** A successful generation is the span between its bounds. */
  lemma PeriodosSpan(mesInicio: string, anoInicio: string, mesFim: string, anoFim: string)
    requires Periodos(mesInicio, anoInicio, mesFim, anoFim).Ok?
    ensures var b := Bounds(mesInicio, anoInicio, mesFim, anoFim);
      b.Ok? && Periodos(mesInicio, anoInicio, mesFim, anoFim).value == Span(b.value.0, b.value.1)
  {
  }

  /** Every generated period reads back as the month it stands for: periods are
      consecutive calendar months from the start, in increasing order (so without
      gaps or duplicates), each month a two-digit string. */
  lemma {:induction false} PeriodosConsecutive(mesInicio: string, anoInicio: string, mesFim: string, anoFim: string)
    requires Periodos(mesInicio, anoInicio, mesFim, anoFim).Ok?
    ensures var ps := Periodos(mesInicio, anoInicio, mesFim, anoFim).value;
      var s := Bounds(mesInicio, anoInicio, mesFim, anoFim).value.0;
      (forall i :: 0 <= i < |ps| ==> IndexOf(ps[i]) == Some(s + i) && |ps[i].mes| == 2)
      && (forall i, j :: 0 <= i < j < |ps| ==> IndexOf(ps[i]).value < IndexOf(ps[j]).value)
      && (forall i, j :: 0 <= i < j < |ps| ==> ps[i] != ps[j])
  {
    PeriodosSpan(mesInicio, anoInicio, mesFim, anoFim);
    var (s, e) := Bounds(mesInicio, anoInicio, mesFim, anoFim).value;
    SpanReadBack(s, e);
    IncreasingDistinct(Span(s, e), s);
  }

  /** The number of periods is the inclusive month count, or 0 for a backwards range;
      the first and last are the given endpoints. */
  lemma {:induction false} PeriodosCount(mesInicio: string, anoInicio: string, mesFim: string, anoFim: string)
    requires Periodos(mesInicio, anoInicio, mesFim, anoFim).Ok?
    ensures var ps := Periodos(mesInicio, anoInicio, mesFim, anoFim).value;
      var (s, e) := Bounds(mesInicio, anoInicio, mesFim, anoFim).value;
      |ps| == (if s <= e then e - s + 1 else 0)
      && (s <= e ==> IndexOf(ps[0]) == Some(s) && IndexOf(ps[|ps| - 1]) == Some(e))
  {
    PeriodosSpan(mesInicio, anoInicio, mesFim, anoFim);
    var (s, e) := Bounds(mesInicio, anoInicio, mesFim, anoFim).value;
    if s <= e {
      SpanFirst(s, e);
      SpanLast(s, e);
    }
  }

  /** Generation fails exactly when an argument is not a number, a date is out of
      datetime's range, or the range is non-empty and ends in December 9999. */
  lemma PeriodosFails(mesInicio: string, anoInicio: string, mesFim: string, anoFim: string)
    ensures var b := Bounds(mesInicio, anoInicio, mesFim, anoFim);
      Periodos(mesInicio, anoInicio, mesFim, anoFim).Err?
      <==> b.Err? || (b.value.0 <= b.value.1 && b.value.1 == LastIndex)
  {
  }

  /** The bounds are the month indices the four arguments spell. */
  lemma BoundsOfDigits(mesInicio: string, anoInicio: string, mesFim: string, anoFim: string)
    requires |mesInicio| > 0 && IsDigits(mesInicio) && |anoInicio| > 0 && IsDigits(anoInicio)
    requires |mesFim| > 0 && IsDigits(mesFim) && |anoFim| > 0 && IsDigits(anoFim)
    requires ValidDate(Value(anoInicio), Value(mesInicio)) && ValidDate(Value(anoFim), Value(mesFim))
    ensures Bounds(mesInicio, anoInicio, mesFim, anoFim)
      == Ok((MonthIndex(Value(anoInicio), Value(mesInicio)), MonthIndex(Value(anoFim), Value(mesFim))))
  {
    ParseIntDigits(mesInicio);
    ParseIntDigits(anoInicio);
    ParseIntDigits(mesFim);
    ParseIntDigits(anoFim);
  }

  // -------------------------------------------------- the MMAAAA strings

  /** periodo[:2] and periodo[2:], the month and year parts of an MMAAAA string. */
  function Split(periodo: string): (r: (string, string))
    ensures r.0 + r.1 == periodo
  {
    (Take(periodo, 2), Drop(periodo, 2))
  }

  /** The periods a batch from periodo_inicial to periodo_final closes. */
  function Generated(periodoInicial: string, periodoFinal: string): Result<seq<Period>>
  {
    var (mi, ai) := Split(periodoInicial);
    var (mf, af) := Split(periodoFinal);
    Periodos(mi, ai, mf, af)
  }

  /** An MMAAAA string: six digits, a month 01 to 12, a year below 9999. */
  predicate IsMMAAAA(p: string)
  {
    |p| == 6 && IsDigits(p) && 1 <= Value(p[..2]) <= 12 && 1 <= Value(p[2..]) < MaxYear
  }

  /** The month index an MMAAAA string names. */
  function IndexOfMMAAAA(p: string): nat
    requires IsMMAAAA(p)
  {
    MonthIndex(Value(p[2..]), Value(p[..2]))
  }

  /** Between MMAAAA strings, generation succeeds with every month from the first to the last. */
  lemma {:induction false} GeneratedFromMMAAAA(periodoInicial: string, periodoFinal: string)
    requires IsMMAAAA(periodoInicial) && IsMMAAAA(periodoFinal)
    ensures Generated(periodoInicial, periodoFinal)
      == Ok(Span(IndexOfMMAAAA(periodoInicial), IndexOfMMAAAA(periodoFinal)))
  {
    var mi, ai := periodoInicial[..2], periodoInicial[2..];
    var mf, af := periodoFinal[..2], periodoFinal[2..];
    assert Split(periodoInicial) == (mi, ai) && Split(periodoFinal) == (mf, af);
    BoundsOfDigits(mi, ai, mf, af);
  }

  /** The month and year of an index are the ones it was built from. */
  lemma MonthIndexParts(y: nat, m: nat)
    requires 1 <= m <= 12
    ensures MonthIndex(y, m) % 12 + 1 == m && MonthIndex(y, m) / 12 == y
  {
  }

  /** The first month between two MMAAAA strings carries the first string's own month
      text, so the portal is asked for the month the user typed. */
  lemma {:induction false} FirstMonthText(periodoInicial: string, periodoFinal: string)
    requires IsMMAAAA(periodoInicial) && IsMMAAAA(periodoFinal)
    ensures var ps := Span(IndexOfMMAAAA(periodoInicial), IndexOfMMAAAA(periodoFinal));
      |ps| > 0 ==> ps[0].mes == periodoInicial[..2]
  {
    var s, e := IndexOfMMAAAA(periodoInicial), IndexOfMMAAAA(periodoFinal);
    var mi := periodoInicial[..2];
    if s <= e {
      MonthIndexParts(Value(periodoInicial[2..]), Value(mi));
      assert Span(s, e)[0] == PeriodAt(s);
      Pad2Round(mi);
    }
  }

  /** A two-digit string is the zero-padded spelling of its value. */
  lemma Pad2Round(d: string)
    requires |d| == 2 && IsDigits(d)
    ensures Pad2(Value(d)) == d
  {
    var a, b := DigitValue(d[0]), DigitValue(d[1]);
    assert d[..1] == [d[0]] && d[..1][..0] == [];
    assert Value(d[..1]) == a;
    assert Value(d) == a * 10 + b;
    if a == 0 {
      assert Pad2(Value(d)) == "0" + [DigitChar(b)];
    } else {
      assert Value(d) / 10 == a && Value(d) % 10 == b;
      assert DecimalString(Value(d)) == DecimalString(a) + [DigitChar(b)];
    }
  }

  // ------------------------------------------------------------- examples

  /** 07/2023 to 03/2025: 21 periods, from ("07", "2023") to ("03", "2025"). */
  lemma Example21()
    ensures Generated("072023", "032025").Ok?
    ensures var ps := Generated("072023", "032025").value;
      |ps| == 21 && ps[0] == Period("07", "2023") && ps[20] == Period("03", "2025")
  {
    SplitFacts();
    ValueFacts();
    BoundsOfDigits("07", "2023", "03", "2025");
    assert Generated("072023", "032025") == Ok(Span(MonthIndex(2023, 7), MonthIndex(2025, 3)));
    PeriodFacts();
  }

  /** The range botaca.py hardcodes, 09/2024 to 03/2025: 7 periods, from
      ("09", "2024") to ("03", "2025"). */
  lemma Example7()
    ensures Periodos("09", "2024", "03", "2025").Ok?
    ensures var ps := Periodos("09", "2024", "03", "2025").value;
      |ps| == 7 && ps[0] == Period("09", "2024") && ps[6] == Period("03", "2025")
  {
    ValueFacts();
    BoundsOfDigits("09", "2024", "03", "2025");
    assert Periodos("09", "2024", "03", "2025") == Ok(Span(MonthIndex(2024, 9), MonthIndex(2025, 3)));
    PeriodFacts();
  }

  /** "132024" (month 13) makes generation raise instead of looping. */
  lemma ExampleMonth13()
    ensures Generated("132024", "032025") == Err(ValueError)
  {
    SplitFacts();
    ValueFacts();
    ParseIntDigits("13");
  }

  lemma SplitFacts()
    ensures Split("072023") == ("07", "2023") && Split("032025") == ("03", "2025")
    ensures Split("132024") == ("13", "2024")
  {
    assert "072023"[..2] == "07" && "072023"[2..] == "2023";
    assert "032025"[..2] == "03" && "032025"[2..] == "2025";
    assert "132024"[..2] == "13" && "132024"[2..] == "2024";
  }

  lemma ValueFacts()
    ensures Value("07") == 7 && Value("03") == 3 && Value("09") == 9 && Value("13") == 13
    ensures Value("2023") == 2023 && Value("2024") == 2024 && Value("2025") == 2025
  {
    assert "07"[..1] == "0" && "03"[..1] == "0" && "09"[..1] == "0" && "13"[..1] == "1";
    assert "2023"[..3] == "202" && "202"[..2] == "20" && "20"[..1] == "2";
    assert "2024"[..3] == "202" && "2025"[..3] == "202";
  }

  lemma DecimalFacts()
    ensures DecimalString(2023) == "2023" && DecimalString(2025) == "2025"
    ensures DecimalString(2024) == "2024" && Pad2(9) == "09"
    ensures Pad2(7) == "07" && Pad2(3) == "03"
  {
    assert DecimalString(2) == "2" && DecimalString(0) == "0" && DecimalString(3) == "3";
    assert DecimalString(20) == "20";
    assert DecimalString(202) == "202";
    assert DecimalString(2023) == DecimalString(202) + "3";
    assert DecimalString(2025) == DecimalString(202) + "5";
    assert DecimalString(2024) == DecimalString(202) + "4";
    assert DecimalString(9) == "9";
    assert DecimalString(7) == "7";
  }

  lemma PeriodFacts()
    ensures PeriodAt(MonthIndex(2023, 7)) == Period("07", "2023")
    ensures PeriodAt(MonthIndex(2025, 3)) == Period("03", "2025")
    ensures PeriodAt(MonthIndex(2024, 9)) == Period("09", "2024")
  {
    DecimalFacts();
    assert MonthIndex(2024, 9) / 12 == 2024 && MonthIndex(2024, 9) % 12 + 1 == 9;
    assert MonthIndex(2023, 7) / 12 == 2023 && MonthIndex(2023, 7) % 12 + 1 == 7;
    assert MonthIndex(2025, 3) / 12 == 2025 && MonthIndex(2025, 3) % 12 + 1 == 3;
  }
}
