/** bots/bot2.py: log in (solving the CAPTCHA by OCR), read and save the client
    roster, select the client, then close every month of the requested range,
    writing the progress to the client's row as it goes. */
module Bot2 {
  import opened Runtime
  import opened Text
  import opened Periods
  import opened Closing
  import opened Empresas
  import opened Roster
  import opened Captcha

  /** What encerrar_movimento did: the status writes in order, the periods tried
      in order, and how it ended. */
  datatype BatchLog = BatchLog(writes: seq<StatusWrite>, tried: seq<Tried>, end: End)

  const Erro := StatusWrite("erro", "0")
  const Concluido := StatusWrite("concluido", "100")

  /** floor(a / n), by repeated subtraction. */
  function Quotient(a: nat, n: nat): nat
    requires n > 0
    decreases a
  {
    if a < n then 0 else 1 + Quotient(a - n, n)
  }

  /** int(i / n * 100) for period i of n, taken here in integer arithmetic. */
  function Percent(i: nat, n: nat): nat
    requires i < n
  {
    Quotient(i * 100, n)
  }

  /** The progress stored before period i of n: str(int(i / n * 100)). */
  function Progress(i: nat, n: nat): string
    requires i < n
  {
    DecimalString(Percent(i, n))
  }

  function EmProcesso(i: nat, n: nat): StatusWrite
    requires i < n
  {
    StatusWrite("em_processo", Progress(i, n))
  }

  /** What the try block of each period does on this browser, by period number. */
  function Tries(flow: Flow, ui: Ui): nat -> Attempt
  {
    (i: nat) => AttemptPeriod(flow, ui, i)
  }

  /** A failed period whose error screenshot itself raises: the exception leaves
      the per-period handler and reaches the outer one. */
  predicate Fatal(tries: nat -> Attempt, shot: nat -> bool, i: nat)
  {
    tries(i).outcome == Failed && shot(i)
  }

  /** The loop from period i on, where tries(i) is what period i's try block does
      and shot(i) says that its error screenshot raises. */
  function LoopFrom(tries: nat -> Attempt, shot: nat -> bool, ps: seq<Period>, i: nat): BatchLog
    requires i <= |ps|
    decreases |ps| - i
  {
    if i == |ps| then BatchLog([Concluido], [], Completed)
    else
      var here := Tried(ps[i], tries(i));
      if Fatal(tries, shot, i) then BatchLog([EmProcesso(i, |ps|), Erro], [here], Raised(BrowserError))
      else
        var rest := LoopFrom(tries, shot, ps, i + 1);
        BatchLog([EmProcesso(i, |ps|)] + rest.writes, [here] + rest.tried, rest.end)
  }

  /** encerrar_movimento(page, cnpj, periodo_inicial, periodo_final): a range that
      does not generate records erro/0 and re-raises. */
  function Batch(ui: Ui, periodoInicial: string, periodoFinal: string): BatchLog
  {
    match Generated(periodoInicial, periodoFinal)
    case Err(e) => BatchLog([Erro], [], Raised(e))
    case Ok(ps) => LoopFrom(Tries(Bot2Flow, ui), ui.shotRaises, ps, 0)
  }

  function Join(ws: seq<StatusWrite>, ts: seq<Tried>, rest: BatchLog): BatchLog
  {
    BatchLog(ws + rest.writes, ts + rest.tried, rest.end)
  }

  /** One turn of the loop. */
  lemma LoopFromStep(tries: nat -> Attempt, shot: nat -> bool, ps: seq<Period>, i: nat)
    requires i < |ps|
    ensures LoopFrom(tries, shot, ps, i)
      == if Fatal(tries, shot, i) then BatchLog([EmProcesso(i, |ps|), Erro], [Tried(ps[i], tries(i))], Raised(BrowserError))
         else Join([EmProcesso(i, |ps|)], [Tried(ps[i], tries(i))], LoopFrom(tries, shot, ps, i + 1))
  {
  }

  /** encerrar_movimento(page, cnpj, periodo_inicial, periodo_final): split the
      MMAAAA strings, generate the periods, then run the loop; a range that does
      not generate records erro/0 and re-raises. */
  method EncerrarMovimento(db: Database, ui: Ui, cnpj: string, periodoInicial: string, periodoFinal: string)
    returns (log: BatchLog)
    modifies db
    ensures log == Batch(ui, periodoInicial, periodoFinal)
    ensures db.empresas == ApplyWrites(old(db.empresas), cnpj, log.writes)
  {
    var mesInicial, anoInicial := Take(periodoInicial, 2), Drop(periodoInicial, 2);
    var mesFinal, anoFinal := Take(periodoFinal, 2), Drop(periodoFinal, 2);
    var gerados := GerarPeriodos(mesInicial, anoInicial, mesFinal, anoFinal);
    if gerados.Err? {
      db.AtualizarStatus(cnpj, "erro", "0");
      ApplyWritesSnoc(old(db.empresas), cnpj, [], Erro);
      return BatchLog([Erro], [], Raised(gerados.error));
    }
    log := Encerrar(db, Bot2Flow, ui, cnpj, gerados.value);
  }

  /** The for loop of encerrar_movimento over the generated periods: before each
      period em_processo with its progress, then the period's try block; after
      the loop concluido/100. A screenshot that raises in a period's handler
      leaves the loop and records erro/0. */
  method Encerrar(db: Database, flow: Flow, ui: Ui, cnpj: string, periodos: seq<Period>) returns (log: BatchLog)
    modifies db
    ensures log == LoopFrom(Tries(flow, ui), ui.shotRaises, periodos, 0)
    ensures db.empresas == ApplyWrites(old(db.empresas), cnpj, log.writes)
  {
    ghost var tries, shot := Tries(flow, ui), ui.shotRaises;
    ghost var whole := LoopFrom(tries, shot, periodos, 0);
    assert whole == Join([], [], whole);
    var total := |periodos|;
    var writes: seq<StatusWrite> := [];
    var tried: seq<Tried> := [];
    for i := 0 to total
      invariant db.empresas == ApplyWrites(old(db.empresas), cnpj, writes)
      invariant whole == Join(writes, tried, LoopFrom(tries, shot, periodos, i))
    {
      // str(int(i / total * 100)), taken in integer arithmetic (see QuotientIsDiv)
      var w := StatusWrite("em_processo", Progress(i, total));
      db.AtualizarStatus(cnpj, w.status, w.progresso);
      ApplyWritesSnoc(old(db.empresas), cnpj, writes, w);
      var attempt := AttemptPeriod(flow, ui, i);
      var t := Tried(periodos[i], attempt);
      assert attempt == tries(i);
      if attempt.outcome == Failed && ui.shotRaises(i) {
        // the error screenshot raised: the outer handler records erro/0
        LoopFatalStep(tries, shot, periodos, i, writes, tried, whole);
        db.AtualizarStatus(cnpj, "erro", "0");
        ApplyWritesSnoc(old(db.empresas), cnpj, writes + [w], Erro);
        assert writes + [w] + [Erro] == writes + [w, Erro];
        return BatchLog(writes + [w, Erro], tried + [t], Raised(BrowserError));
      }
      // otherwise the period was closed, skipped, or its failure screenshotted
      LoopNextStep(tries, shot, periodos, i, writes, tried, whole);
      writes, tried := writes + [w], tried + [t];
    }
    LoopFromEndJoin(tries, shot, periodos, writes, tried, whole);
    db.AtualizarStatus(cnpj, "concluido", "100");
    ApplyWritesSnoc(old(db.empresas), cnpj, writes, Concluido);
    return BatchLog(writes + [Concluido], tried, Completed);
  }

  /** A period that is not fatal adds its em_processo write and its attempt, and
      the loop goes on. */
  lemma LoopNextStep(tries: nat -> Attempt, shot: nat -> bool, ps: seq<Period>, i: nat,
                     ws: seq<StatusWrite>, ts: seq<Tried>, whole: BatchLog)
    requires i < |ps| && !Fatal(tries, shot, i)
    requires whole == Join(ws, ts, LoopFrom(tries, shot, ps, i))
    ensures whole == Join(ws + [EmProcesso(i, |ps|)], ts + [Tried(ps[i], tries(i))], LoopFrom(tries, shot, ps, i + 1))
  {
    var rest := LoopFrom(tries, shot, ps, i + 1);
    assert LoopFrom(tries, shot, ps, i) == Join([EmProcesso(i, |ps|)], [Tried(ps[i], tries(i))], rest);
    JoinSnoc(ws, ts, EmProcesso(i, |ps|), Tried(ps[i], tries(i)), rest);
  }

  /** A fatal period ends the loop with its em_processo write followed by erro/0. */
  lemma LoopFatalStep(tries: nat -> Attempt, shot: nat -> bool, ps: seq<Period>, i: nat,
                      ws: seq<StatusWrite>, ts: seq<Tried>, whole: BatchLog)
    requires i < |ps| && Fatal(tries, shot, i)
    requires whole == Join(ws, ts, LoopFrom(tries, shot, ps, i))
    ensures whole == BatchLog(ws + [EmProcesso(i, |ps|), Erro], ts + [Tried(ps[i], tries(i))], Raised(BrowserError))
  {
    assert [EmProcesso(i, |ps|)] + [Erro] == [EmProcesso(i, |ps|), Erro];
    JoinSnoc(ws, ts, EmProcesso(i, |ps|), Tried(ps[i], tries(i)), BatchLog([Erro], [], Raised(BrowserError)));
  }

  /** Past the last period only concluido/100 remains. */
  lemma LoopFromEndJoin(tries: nat -> Attempt, shot: nat -> bool, ps: seq<Period>,
                        ws: seq<StatusWrite>, ts: seq<Tried>, whole: BatchLog)
    requires whole == Join(ws, ts, LoopFrom(tries, shot, ps, |ps|))
    ensures whole == BatchLog(ws + [Concluido], ts, Completed)
  {
    assert ts + [] == ts;
  }

  lemma JoinSnoc(ws: seq<StatusWrite>, ts: seq<Tried>, w: StatusWrite, t: Tried, rest: BatchLog)
    ensures Join(ws, ts, Join([w], [t], rest)) == Join(ws + [w], ts + [t], rest)
  {
    assert ws + ([w] + rest.writes) == (ws + [w]) + rest.writes;
    assert ts + ([t] + rest.tried) == (ts + [t]) + rest.tried;
  }

  // ------------------------------------------------------------ the batch

  /** The first period at or after i whose failure is fatal, or n if none is. */
  function FirstFatal(tries: nat -> Attempt, shot: nat -> bool, n: nat, i: nat): (f: nat)
    requires i <= n
    ensures i <= f <= n
    ensures forall j :: i <= j < f ==> !Fatal(tries, shot, j)
    ensures f < n ==> Fatal(tries, shot, f)
    decreases n - i
  {
    if i == n || Fatal(tries, shot, i) then i else FirstFatal(tries, shot, n, i + 1)
  }

  /** The loop from period i on tries the periods up to and including the first
      fatal one, and writes one em_processo per period tried and one final status. */
  lemma {:induction false} LoopFromCount(tries: nat -> Attempt, shot: nat -> bool, ps: seq<Period>, i: nat)
    requires i <= |ps|
    ensures var r, n, f := LoopFrom(tries, shot, ps, i), |ps|, FirstFatal(tries, shot, |ps|, i);
      |r.tried| == (if f < n then f + 1 else n) - i && |r.writes| == |r.tried| + 1
    decreases |ps| - i
  {
    if i < |ps| && !Fatal(tries, shot, i) {
      LoopFromCount(tries, shot, ps, i + 1);
    }
  }

  /** The loop from period i on ends with concluido/100 when no later period is
      fatal, and with erro/0 and the exception otherwise. */
  lemma {:induction false} LoopFromEnd(tries: nat -> Attempt, shot: nat -> bool, ps: seq<Period>, i: nat)
    requires i <= |ps|
    ensures var r, n, f := LoopFrom(tries, shot, ps, i), |ps|, FirstFatal(tries, shot, |ps|, i);
      r.writes != []
      && r.writes[|r.writes| - 1] == (if f < n then Erro else Concluido)
      && r.end == (if f < n then Raised(BrowserError) else Completed)
    decreases |ps| - i
  {
    if i < |ps| && !Fatal(tries, shot, i) {
      LoopFromEnd(tries, shot, ps, i + 1);
    }
  }

  /** The j-th period the loop from period i tries is period i + j, once, in order,
      and the write before it is em_processo with that period's progress. */
  lemma {:induction false} LoopFromAt(tries: nat -> Attempt, shot: nat -> bool, ps: seq<Period>, i: nat, j: nat)
    requires i <= |ps| && j < |LoopFrom(tries, shot, ps, i).tried|
    ensures var r := LoopFrom(tries, shot, ps, i);
      i + j < |ps| && j < |r.writes|
      && r.tried[j] == Tried(ps[i + j], tries(i + j))
      && r.writes[j] == EmProcesso(i + j, |ps|)
    decreases j
  {
    if j > 0 {
      LoopFromAt(tries, shot, ps, i + 1, j - 1);
    }
  }

  /** The three lemmas above, for the whole loop. */
  lemma LoopShape(tries: nat -> Attempt, shot: nat -> bool, ps: seq<Period>)
    ensures var r, n, f := LoopFrom(tries, shot, ps, 0), |ps|, FirstFatal(tries, shot, |ps|, 0);
      |r.tried| == (if f < n then f + 1 else n)
      && |r.writes| == |r.tried| + 1
      && (forall j :: 0 <= j < |r.tried| ==>
            j < n && r.tried[j] == Tried(ps[j], tries(j)) && r.writes[j] == EmProcesso(j, n))
      && r.writes[|r.writes| - 1] == (if f < n then Erro else Concluido)
      && r.end == (if f < n then Raised(BrowserError) else Completed)
  {
    LoopFromCount(tries, shot, ps, 0);
    LoopFromEnd(tries, shot, ps, 0);
    var r := LoopFrom(tries, shot, ps, 0);
    forall j | 0 <= j < |r.tried|
      ensures j < |ps| && r.tried[j] == Tried(ps[j], tries(j)) && r.writes[j] == EmProcesso(j, |ps|)
    {
      LoopFromAt(tries, shot, ps, 0, j);
    }
  }

  /** The loop over a generated range: every period is tried once, in order, up to
      the first fatal failure; periods that fail otherwise, or are already closed,
      never stop it; it ends with concluido/100 exactly when no failure was fatal,
      which includes the empty range. */
  lemma BatchContainment(ui: Ui, periodoInicial: string, periodoFinal: string)
    requires Generated(periodoInicial, periodoFinal).Ok?
    ensures var ps, log := Generated(periodoInicial, periodoFinal).value, Batch(ui, periodoInicial, periodoFinal);
      var f := FirstFatal(Tries(Bot2Flow, ui), ui.shotRaises, |ps|, 0);
      (log.end == Completed <==> forall j :: 0 <= j < |ps| ==> !Fatal(Tries(Bot2Flow, ui), ui.shotRaises, j))
      && (log.end == Completed ==> |log.tried| == |ps| && log.writes[|log.writes| - 1] == Concluido)
      && (log.end != Completed ==> |log.tried| == f + 1 && log.end == Raised(BrowserError)
                                   && log.writes[|log.writes| - 1] == Erro)
      && (forall j :: 0 <= j < |log.tried| ==>
            log.tried[j].periodo == ps[j] && log.tried[j].attempt == AttemptPeriod(Bot2Flow, ui, j))
  {
    var ps := Generated(periodoInicial, periodoFinal).value;
    LoopShape(Tries(Bot2Flow, ui), ui.shotRaises, ps);
  }

  /** A range that does not generate (a month outside 1..12, a year that is not a
      number or out of range, an end month after 9999-12) writes erro/0 once and
      raises; no period is tried. */
  lemma BatchGenerationError(ui: Ui, periodoInicial: string, periodoFinal: string)
    requires Generated(periodoInicial, periodoFinal).Err?
    ensures var log := Batch(ui, periodoInicial, periodoFinal);
      log.writes == [Erro] && log.tried == [] && log.end == Raised(Generated(periodoInicial, periodoFinal).error)
  {
  }

  lemma MulMonotone(n: nat, x: nat, y: nat)
    requires x <= y
    ensures n * x <= n * y
  {
  }

  /** Euclidean division has one quotient and one remainder. */
  lemma DivUnique(a: nat, n: nat, q: nat, r: nat)
    requires 0 < n && a == n * q + r && r < n
    ensures a / n == q
  {
    var q0, r0 := a / n, a % n;
    assert a == n * q0 + r0;
    if q0 < q {
      MulMonotone(n, q0 + 1, q);
      assert false;
    } else if q0 > q {
      MulMonotone(n, q + 1, q0);
      assert false;
    }
  }

  /** Repeated subtraction computes the floor of the quotient. */
  lemma {:induction false} QuotientIsDiv(a: nat, n: nat)
    requires n > 0
    ensures Quotient(a, n) == a / n
    decreases a
  {
    if a >= n {
      QuotientIsDiv(a - n, n);
      var q, r := (a - n) / n, (a - n) % n;
      assert a == n * (q + 1) + r;
      DivUnique(a, n, q + 1, r);
    } else {
      DivUnique(a, n, 0, a);
    }
  }

  lemma {:induction false} QuotientMonotone(a: nat, b: nat, n: nat)
    requires a <= b && n > 0
    ensures Quotient(a, n) <= Quotient(b, n)
    decreases a
  {
    if a >= n {
      QuotientMonotone(a - n, b - n, n);
    }
  }

  lemma {:induction false} QuotientBelow(a: nat, n: nat, c: nat)
    requires n > 0 && a < c * n
    ensures Quotient(a, n) < c
    decreases a
  {
    if a >= n {
      assert (c - 1) * n == c * n - n;
      QuotientBelow(a - n, n, c - 1);
    }
  }

  /** The progress of a period is below 100 and never lower for a later period. */
  lemma {:induction false} PercentBounds(i: nat, j: nat, n: nat)
    requires i <= j < n
    ensures Percent(i, n) <= Percent(j, n) < 100
  {
    QuotientMonotone(i * 100, j * 100, n);
    QuotientBelow(j * 100, n, 100);
  }

  /** The progress written before period a reads back as a number below 100 and
      not above the one written before a later period b. */
  lemma ProgressReadBack(a: nat, b: nat, n: nat)
    requires a <= b < n
    ensures IsDigits(Progress(a, n)) && IsDigits(Progress(b, n))
    ensures Value(Progress(a, n)) <= Value(Progress(b, n)) < 100
  {
    ValueOfDecimal(Percent(a, n));
    ValueOfDecimal(Percent(b, n));
    PercentBounds(a, b, n);
  }

  /** The progress values written before the periods read back as numbers in
      [0, 100) that never decrease. */
  lemma LoopProgressMonotone(tries: nat -> Attempt, shot: nat -> bool, ps: seq<Period>)
    ensures var log := LoopFrom(tries, shot, ps, 0);
      |log.writes| == |log.tried| + 1
      && forall a, b :: 0 <= a <= b < |log.tried| ==>
        log.writes[a].status == "em_processo" && log.writes[b].status == "em_processo"
        && IsDigits(log.writes[a].progresso) && IsDigits(log.writes[b].progresso)
        && Value(log.writes[a].progresso) <= Value(log.writes[b].progresso) < 100
  {
    var log := LoopFrom(tries, shot, ps, 0);
    LoopFromCount(tries, shot, ps, 0);
    forall a, b | 0 <= a <= b < |log.tried|
      ensures log.writes[a].status == "em_processo" && log.writes[b].status == "em_processo"
      ensures IsDigits(log.writes[a].progresso) && IsDigits(log.writes[b].progresso)
      ensures Value(log.writes[a].progresso) <= Value(log.writes[b].progresso) < 100
    {
      LoopFromAt(tries, shot, ps, 0, a);
      LoopFromAt(tries, shot, ps, 0, b);
      ProgressReadBack(a, b, |ps|);
    }
  }

  lemma BatchProgressMonotone(ui: Ui, periodoInicial: string, periodoFinal: string)
    requires Generated(periodoInicial, periodoFinal).Ok?
    ensures var log := Batch(ui, periodoInicial, periodoFinal);
      |log.writes| == |log.tried| + 1
      && forall a, b :: 0 <= a <= b < |log.tried| ==>
        log.writes[a].status == "em_processo" && log.writes[b].status == "em_processo"
        && IsDigits(log.writes[a].progresso) && IsDigits(log.writes[b].progresso)
        && Value(log.writes[a].progresso) <= Value(log.writes[b].progresso) < 100
  {
    LoopProgressMonotone(Tries(Bot2Flow, ui), ui.shotRaises, Generated(periodoInicial, periodoFinal).value);
  }

  /** After a batch the client's row holds concluido/100 when it completed and
      erro/0 when it raised; every other row is untouched. */
  lemma BatchFinalStatus(t: Table, ui: Ui, cnpj: string, periodoInicial: string, periodoFinal: string)
    requires cnpj in t
    ensures var log := Batch(ui, periodoInicial, periodoFinal);
      var r := ApplyWrites(t, cnpj, log.writes);
      r.Keys == t.Keys
      && (log.end == Completed ==> r[cnpj].status == "concluido" && r[cnpj].progresso == "100")
      && (log.end.Raised? ==> r[cnpj].status == "erro" && r[cnpj].progresso == "0")
      && (forall k :: k in t && k != cnpj ==> r[k] == t[k])
  {
    var log := Batch(ui, periodoInicial, periodoFinal);
    ApplyWritesEffect(t, cnpj, log.writes);
    if Generated(periodoInicial, periodoFinal).Ok? {
      BatchContainment(ui, periodoInicial, periodoFinal);
    }
  }

  /** A period reported as already closed skips the closing link, "Encerrar Mês"
      and the close icon. */
  lemma BatchSkips(ui: Ui, periodoInicial: string, periodoFinal: string, j: nat)
    requires Generated(periodoInicial, periodoFinal).Ok?
    requires j < |Batch(ui, periodoInicial, periodoFinal).tried|
    requires Batch(ui, periodoInicial, periodoFinal).tried[j].attempt.outcome == AlreadyClosed
    ensures var ran := Batch(ui, periodoInicial, periodoFinal).tried[j].attempt.ran;
      ClickEncerrarLink !in ran && ClickEncerrarMes !in ran && ClickFechar !in ran
  {
    BatchContainment(ui, periodoInicial, periodoFinal);
    Bot2SkipRunsNoClosingStep(ui, j);
  }

  // ------------------------------------------------------------ run

  /** The browser's launch, then the login steps inside the try. */
  const LoginSteps: seq<SessionStep> := [Launch, Goto, ClickContadores, FillCrc, FillSenha]
  const NavSteps: seq<SessionStep> := [ClickContribuinte, ClickCarteira, WaitRows, CountRows]

  /** Login steps that raise nothing include the launch. */
  lemma Launched(ui: Ui)
    requires SessionOk(ui, LoginSteps)
    ensures !ui.session(Launch)
  {
    assert LoginSteps[0] == Launch;
  }

  /** What run did: the CAPTCHA loop's final state (if reached), the tuples read,
      whether they were committed, the batch (if reached), and how run ended. */
  datatype RunLog = RunLog(captcha: Option<Captcha.Run>, dados: seq<Linha>, saved: bool,
                           batch: Option<BatchLog>, end: End)

  /** The handler of run: screenshot erro_geral.png and re-raise; a screenshot that
      raises replaces the exception. */
  function Handler(ui: Ui, e: Exc): End
  {
    Raised(if ui.session(ErrorScreenshot) then BrowserError else e)
  }

  /** run(playwright, cnpj, periodo_inicial, periodo_final) with no status callback;
      rows is the roster page, fails the sqlite failure oracle of the save. */
  function RunSpec(ui: Ui, cp: Page, rows: seq<RawRow>, fails: nat -> bool,
                   periodoInicial: string, periodoFinal: string): RunLog
  {
    if ui.session(Launch) then RunLog(None, [], false, None, Raised(BrowserError))  // before the try: no screenshot
    else if !SessionOk(ui, LoginSteps) then RunLog(None, [], false, None, Handler(ui, BrowserError))
    else
      Logged(ui, Resolve(cp), rows, fails, periodoInicial, periodoFinal)
  }

  /** The rest of run once the CAPTCHA loop has ended in state c. */
  function Logged(ui: Ui, c: Captcha.Run, rows: seq<RawRow>, fails: nat -> bool,
                  periodoInicial: string, periodoFinal: string): RunLog
  {
    if c.raised.Some? then RunLog(Some(c), [], false, None, Handler(ui, c.raised.value))
    else if !SessionOk(ui, NavSteps) then RunLog(Some(c), [], false, None, Handler(ui, BrowserError))
    else
      var dados := Lenient(rows);
      Selected(ui, c, dados, forall i :: 0 <= i < |dados| ==> !fails(i), periodoInicial, periodoFinal)
  }

  /** The rest of run once the roster is read (and saved or not): select the
      client, then close its months. */
  function Selected(ui: Ui, c: Captcha.Run, dados: seq<Linha>, saved: bool,
                    periodoInicial: string, periodoFinal: string): RunLog
  {
    if !SessionOk(ui, SelectSteps) then RunLog(Some(c), dados, saved, None, Handler(ui, BrowserError))
    else
      var b := Batch(ui, periodoInicial, periodoFinal);
      RunLog(Some(c), dados, saved, Some(b), if b.end.Raised? then Handler(ui, b.end.error) else Completed)
  }

  /** The table after run: the roster saved if committed, then the batch's writes. */
  function RunTable(t: Table, cnpj: string, log: RunLog): Table
  {
    var t1 := if log.saved then UpsertAll(t, log.dados) else t;
    if log.batch.Some? then ApplyWrites(t1, cnpj, log.batch.value.writes) else t1
  }

  method Run(db: Database, ui: Ui, cp: Page, rows: seq<RawRow>, fails: nat -> bool,
             cnpj: string, periodoInicial: string, periodoFinal: string)
    returns (log: RunLog)
    modifies db
    ensures log == RunSpec(ui, cp, rows, fails, periodoInicial, periodoFinal)
    ensures db.empresas == RunTable(old(db.empresas), cnpj, log)
  {
    if ui.session(Launch) {
      return RunLog(None, [], false, None, Raised(BrowserError));
    }
    if !SessionOk(ui, LoginSteps) {
      return RunLog(None, [], false, None, Handler(ui, BrowserError));
    }
    var c := ResolverCaptcha(cp);
    log := Continuar(db, ui, c, rows, fails, cnpj, periodoInicial, periodoFinal);
  }

  /** run after the CAPTCHA loop: the navigation to the roster, the save, then the
      client search and the batch. */
  method Continuar(db: Database, ui: Ui, c: Captcha.Run, rows: seq<RawRow>, fails: nat -> bool,
                   cnpj: string, periodoInicial: string, periodoFinal: string)
    returns (log: RunLog)
    modifies db
    ensures log == Logged(ui, c, rows, fails, periodoInicial, periodoFinal)
    ensures db.empresas == RunTable(old(db.empresas), cnpj, log)
  {
    if c.raised.Some? {
      return RunLog(Some(c), [], false, None, Handler(ui, c.raised.value));
    }
    if !c.sucesso {
      // "Não foi possível resolver o captcha após várias tentativas." and on
    }
    if !SessionOk(ui, NavSteps) {
      return RunLog(Some(c), [], false, None, Handler(ui, BrowserError));
    }
    var dados := ExtractLenient(rows);
    var erro := db.SaveToDatabase(dados, fails);
    var saved := erro.None?;  // a sqlite error is logged and swallowed
    log := Selecionar(db, ui, c, dados, saved, cnpj, periodoInicial, periodoFinal);
  }

  /** The client search and the batch, on the table left by the save. */
  method Selecionar(db: Database, ui: Ui, c: Captcha.Run, dados: seq<Linha>, saved: bool,
                    cnpj: string, periodoInicial: string, periodoFinal: string)
    returns (log: RunLog)
    modifies db
    ensures log == Selected(ui, c, dados, saved, periodoInicial, periodoFinal)
    ensures log.batch.Some? ==> db.empresas == ApplyWrites(old(db.empresas), cnpj, log.batch.value.writes)
    ensures log.batch.None? ==> db.empresas == old(db.empresas)
  {
    if !SessionOk(ui, SelectSteps) {
      return RunLog(Some(c), dados, saved, None, Handler(ui, BrowserError));
    }
    var b := EncerrarMovimento(db, ui, cnpj, periodoInicial, periodoFinal);
    if b.end.Raised? {
      return RunLog(Some(c), dados, saved, Some(b), Handler(ui, b.end.error));
    }
    return RunLog(Some(c), dados, saved, Some(b), Completed);
  }

  /** run completes exactly when the login, the CAPTCHA loop, the navigation and the
      client selection raise nothing and the batch completes. Running out of CAPTCHA
      attempts is not among the failures. */
  lemma RunCompletedIff(ui: Ui, cp: Page, rows: seq<RawRow>, fails: nat -> bool,
                        periodoInicial: string, periodoFinal: string)
    ensures var log := RunSpec(ui, cp, rows, fails, periodoInicial, periodoFinal);
      log.end == Completed <==>
        SessionOk(ui, LoginSteps) && Resolve(cp).raised == None && SessionOk(ui, NavSteps)
        && SessionOk(ui, SelectSteps) && Batch(ui, periodoInicial, periodoFinal).end == Completed
  {
    if SessionOk(ui, LoginSteps) {
      Launched(ui);
    }
  }

  /** A CAPTCHA read refused by the site ends run with an exception before anything
      is read or saved, and no period is tried. */
  lemma RefusedCaptchaStopsRun(ui: Ui, cp: Page, rows: seq<RawRow>, fails: nat -> bool,
                               periodoInicial: string, periodoFinal: string, k: nat)
    requires SessionOk(ui, LoginSteps)
    requires 1 <= k <= MaxTentativas && RejectedUpTo(cp, k - 1)
    requires Accepted(Strip(cp.ocr(k)))
    requires !cp.raises(k, Capture) && !cp.raises(k, Fill) && !cp.raises(k, Op.ClickLogin)
    requires !cp.raises(k, ReadError) && !cp.raises(k, Refresh)
    requires cp.errorNode(k).Some? && Strip(cp.errorNode(k).value) != ""
    ensures var log := RunSpec(ui, cp, rows, fails, periodoInicial, periodoFinal);
      log.end.Raised? && !log.saved && log.batch == None
      && (!ui.session(ErrorScreenshot) ==> log.end == Raised(NameError))
  {
    Launched(ui);
    RefusedLoginRaises(cp, k);
  }

  /** A failed save does not stop run: the batch still runs over the old table. */
  lemma SaveErrorSwallowed(ui: Ui, cp: Page, rows: seq<RawRow>, fails: nat -> bool,
                           periodoInicial: string, periodoFinal: string, t: Table, cnpj: string)
    requires SessionOk(ui, LoginSteps) && Resolve(cp).raised == None
    requires SessionOk(ui, NavSteps) && SessionOk(ui, SelectSteps)
    requires exists i :: 0 <= i < |Lenient(rows)| && fails(i)
    ensures var log := RunSpec(ui, cp, rows, fails, periodoInicial, periodoFinal);
      log.batch == Some(Batch(ui, periodoInicial, periodoFinal)) && !log.saved
      && RunTable(t, cnpj, log) == ApplyWrites(t, cnpj, Batch(ui, periodoInicial, periodoFinal).writes)
  {
    Launched(ui);
  }

  // ------------------------------------------------------------ main

  /** main(cnpj, periodo_inicial, periodo_final): every slash of both periods
      deleted, then run. Nothing in the repository calls main: `__main__` below
      hands its arguments to run as they are, and server.py has already deleted
      the slashes before it starts the script. */
  method Principal(db: Database, ui: Ui, cp: Page, rows: seq<RawRow>, fails: nat -> bool,
                   cnpj: string, periodoInicial: string, periodoFinal: string)
    returns (log: RunLog)
    modifies db
    ensures log == RunSpec(ui, cp, rows, fails, Remove(periodoInicial, '/'), Remove(periodoFinal, '/'))
    ensures db.empresas == RunTable(old(db.empresas), cnpj, log)
  {
    var inicial := Remove(periodoInicial, '/');
    var final := Remove(periodoFinal, '/');
    log := Run(db, ui, cp, rows, fails, cnpj, inicial, final);
  }

  /** A period typed as MM/AAAA reaches run as MMAAAA; one already without a slash
      is passed on unchanged. */
  lemma SlashStripped(mes: string, ano: string)
    requires '/' !in mes && '/' !in ano
    ensures Remove(mes + "/" + ano, '/') == mes + ano
    ensures Remove(mes + ano, '/') == mes + ano
  {
    assert "/" == ['/'];
    RemoveBetween(mes, ano, '/');
    RemoveAbsent(mes + ano, '/');
  }

  // ------------------------------------------------------------ __main__

  /** The process: with fewer than three arguments only a usage line is printed and
      the exit status is 0; otherwise run, then (only if run returned) the
      completion is posted to /encerramento_concluido; an exception out of run
      exits with status 1. */
  datatype Exit = Exit(code: int, notified: bool)

  function MainExit(argc: nat, end: End): (x: Exit)
  {
    if argc <= 3 then Exit(0, false)
    else if end == Completed then Exit(0, true)
    else Exit(1, false)
  }

  /** With its three arguments, the script exits with 0 and notifies exactly when
      run completed. */
  lemma MainExitMeaning(argc: nat, end: End)
    requires argc > 3
    ensures MainExit(argc, end).code == 0 <==> end == Completed
    ensures MainExit(argc, end).notified <==> end == Completed
  {
  }

  /** The process as the coordinator starts it: `__main__` passes the raw
      arguments to run, exits with 0 and posts the completion exactly when
      every stage of the run succeeds, and otherwise exits with 1 without posting.
      That exit status is the return code server.py's worker receives. */
  lemma RunExit(argc: nat, ui: Ui, cp: Page, rows: seq<RawRow>, fails: nat -> bool,
                periodoInicial: string, periodoFinal: string)
    requires argc > 3
    ensures var x := MainExit(argc, RunSpec(ui, cp, rows, fails, periodoInicial, periodoFinal).end);
      (x == Exit(0, true) <==>
         SessionOk(ui, LoginSteps) && Resolve(cp).raised == None && SessionOk(ui, NavSteps)
         && SessionOk(ui, SelectSteps) && Batch(ui, periodoInicial, periodoFinal).end == Completed)
      && (x != Exit(0, true) ==> x == Exit(1, false))
  {
    RunCompletedIff(ui, cp, rows, fails, periodoInicial, periodoFinal);
  }
}
