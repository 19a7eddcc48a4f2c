/** bots/copia_app.py: log in (the CAPTCHA is typed by hand during a fixed wait),
    read and save the client roster, select the client, then close every month
    of the requested range. "Movimento" is clicked once before the loop, every
    period's exception is printed and the loop goes on, and run swallows every
    exception. No status is written. */
module Copia {
  import opened Runtime
  import opened Text
  import opened Periods
  import opened Closing
  import opened Empresas
  import opened Roster

  // ------------------------------------------------------------ the period loop

  /** Every period tried once, in order: period j's try block does what the
      browser makes it do, whatever happened to the periods before it. */
  function Contained(flow: Flow, ui: Ui, ps: seq<Period>): seq<Tried>
  {
    seq(|ps|, j requires 0 <= j < |ps| => Tried(ps[j], AttemptPeriod(flow, ui, j)))
  }

  /** The for loop over the periods, shared by copia_app.py and botaca.py: an
      exception inside a period is printed and the loop continues. */
  method EncerrarPeriodos(flow: Flow, ui: Ui, periodos: seq<Period>) returns (tried: seq<Tried>)
    ensures |tried| == |periodos|
    ensures forall j :: 0 <= j < |tried| ==>
      tried[j].periodo == periodos[j] && tried[j].attempt == AttemptPeriod(flow, ui, j)
  {
    tried := [];
    for i := 0 to |periodos|
      invariant |tried| == i
      invariant forall j :: 0 <= j < i ==>
        tried[j].periodo == periodos[j] && tried[j].attempt == AttemptPeriod(flow, ui, j)
    {
      var attempt := AttemptPeriod(flow, ui, i);
      // Closed, AlreadyClosed (continue) or Failed (printed, continue): the same next step
      tried := tried + [Tried(periodos[i], attempt)];
    }
  }

  /** What encerrar_movimento did: the periods tried and how it ended. */
  datatype Lote = Lote(tried: seq<Tried>, end: End)

  /** The batch once the period list is known: "Movimento" is clicked outside the
      per-period try, so its exception is re-raised; nothing else escapes. */
  function Encerramento(flow: Flow, ui: Ui, ps: seq<Period>): Lote
  {
    if ui.session(MovimentoOnce) then Lote([], Raised(BrowserError))
    else Lote(Contained(flow, ui, ps), Completed)
  }

  /** encerrar_movimento(page, cnpj, periodo_inicial, periodo_final): "Movimento",
      then the split and the generation (whose ValueError is re-raised), then the
      loop. */
  function Batch(ui: Ui, periodoInicial: string, periodoFinal: string): Lote
  {
    if ui.session(MovimentoOnce) then Lote([], Raised(BrowserError))
    else match Generated(periodoInicial, periodoFinal)
      case Err(e) => Lote([], Raised(e))
      case Ok(ps) => Encerramento(CopiaFlow, ui, ps)
  }

  method EncerrarMovimento(ui: Ui, periodoInicial: string, periodoFinal: string) returns (lote: Lote)
    ensures lote == Batch(ui, periodoInicial, periodoFinal)
  {
    if ui.session(MovimentoOnce) {
      return Lote([], Raised(BrowserError));
    }
    var mesInicial, anoInicial := Take(periodoInicial, 2), Drop(periodoInicial, 2);
    var mesFinal, anoFinal := Take(periodoFinal, 2), Drop(periodoFinal, 2);
    var periodos := GerarPeriodos(mesInicial, anoInicial, mesFinal, anoFinal);
    if periodos.Err? {
      return Lote([], Raised(periodos.error));
    }
    var tried := EncerrarPeriodos(CopiaFlow, ui, periodos.value);
    return Lote(tried, Completed);
  }

  /** A period's failure never ends the batch: it ends with an exception exactly
      when "Movimento" raises or the range does not generate, and otherwise every
      generated period was tried once, in order. */
  lemma BatchCompletesIff(ui: Ui, periodoInicial: string, periodoFinal: string)
    ensures var b := Batch(ui, periodoInicial, periodoFinal);
      (b.end == Completed <==> !ui.session(MovimentoOnce) && Generated(periodoInicial, periodoFinal).Ok?)
      && (b.end == Completed ==>
            var ps := Generated(periodoInicial, periodoFinal).value;
            |b.tried| == |ps|
            && forall j :: 0 <= j < |ps| ==> b.tried[j] == Tried(ps[j], AttemptPeriod(CopiaFlow, ui, j)))
      && (b.end.Raised? ==> b.tried == [])
  {
  }

  /** In copia_app.py's flow a period shown as already closed reaches neither the
      closing link, nor "Encerrar Mês", nor the confirmation row. */
  lemma SkipRunsNoClosingStep(ui: Ui, i: nat)
    requires AttemptPeriod(CopiaFlow, ui, i).outcome == AlreadyClosed
    ensures var ran := AttemptPeriod(CopiaFlow, ui, i).ran;
      ClickEncerrarLink !in ran && ClickEncerrarMes !in ran && ClickConfirmRow !in ran
  {
    AttemptMeaning(CopiaFlow, ui, i);
  }

  // ------------------------------------------------------------ run

  /** Before the roster: the browser's launch (before the try), then the portal,
      the accountants' link, the credentials, the login click after the manual
      CAPTCHA wait, the client list and its row count. */
  const AccessSteps: seq<SessionStep> :=
    [Launch, Goto, ClickContadores, FillCrc, FillSenha, ClickLogin, ClickContribuinte, ClickCarteira, WaitRows, CountRows]

  /** Access steps that raise nothing include the launch. */
  lemma Launched(ui: Ui)
    requires SessionOk(ui, AccessSteps)
    ensures !ui.session(Launch)
  {
    assert AccessSteps[0] == Launch;
  }

  /** What run did: the tuples read, whether they were committed, the batch (if
      reached), the exception its handler caught (if any) and how run ended. */
  datatype RunLog = RunLog(dados: seq<Linha>, saved: bool, batch: Option<Lote>, caught: Option<Exc>, end: End)

  /** The handler of run: print, then screenshot erro_geral.png; nothing is
      re-raised, but a screenshot that raises escapes. */
  function Handled(ui: Ui, caught: Option<Exc>): End
  {
    if caught.Some? && ui.session(ErrorScreenshot) then Raised(BrowserError) else Completed
  }

  /** The body of run of copia_app.py and botaca.py, given what the batch at its end
      does: access, strict extraction, the save (whose error escapes), the client
      search, the batch. */
  function Swallowing(ui: Ui, rows: seq<RawRow>, fails: nat -> bool, batch: Lote): RunLog
  {
    if ui.session(Launch) then RunLog([], false, None, None, Raised(BrowserError))  // before the try
    else if !SessionOk(ui, AccessSteps) then RunLog([], false, None, Some(BrowserError), Handled(ui, Some(BrowserError)))
    else match Strict(rows)
      case Err(e) => RunLog([], false, None, Some(e), Handled(ui, Some(e)))
      case Ok(dados) =>
        if exists i :: 0 <= i < |dados| && fails(i) then
          RunLog(dados, false, None, Some(DatabaseError), Handled(ui, Some(DatabaseError)))
        else if !SessionOk(ui, SelectSteps) then
          RunLog(dados, true, None, Some(BrowserError), Handled(ui, Some(BrowserError)))
        else
          var caught := if batch.end.Raised? then Some(batch.end.error) else None;
          RunLog(dados, true, Some(batch), caught, Handled(ui, caught))
  }

  /** run(playwright, cnpj, periodo_inicial, periodo_final). */
  function RunSpec(ui: Ui, rows: seq<RawRow>, fails: nat -> bool, periodoInicial: string, periodoFinal: string): RunLog
  {
    Swallowing(ui, rows, fails, Batch(ui, periodoInicial, periodoFinal))
  }

  /** The table after run: the roster upserted when the save committed. */
  function RunTable(t: Table, log: RunLog): Table
  {
    if log.saved then UpsertAll(t, log.dados) else t
  }

  /** The part of run that reads and saves the roster; None when it got through. */
  method Cadastro(db: Database, ui: Ui, rows: seq<RawRow>, fails: nat -> bool) returns (stop: Option<RunLog>, dados: seq<Linha>)
    modifies db
    ensures stop.None? ==>
      SessionOk(ui, AccessSteps) && Strict(rows) == Ok(dados)
      && (forall i :: 0 <= i < |dados| ==> !fails(i)) && db.empresas == UpsertAll(old(db.empresas), dados)
    ensures stop.Some? ==>
      db.empresas == old(db.empresas) && !stop.value.saved
      && forall b :: stop.value == Swallowing(ui, rows, fails, b)
  {
    if ui.session(Launch) {
      return Some(RunLog([], false, None, None, Raised(BrowserError))), [];
    }
    if !SessionOk(ui, AccessSteps) {
      return Some(RunLog([], false, None, Some(BrowserError), Handled(ui, Some(BrowserError)))), [];
    }
    var r := ExtractStrict(rows);
    if r.Err? {
      return Some(RunLog([], false, None, Some(r.error), Handled(ui, Some(r.error)))), [];
    }
    dados := r.value;
    var err := db.SaveToDatabase(dados, fails);
    if err.Some? {
      return Some(RunLog(dados, false, None, Some(DatabaseError), Handled(ui, Some(DatabaseError)))), dados;
    }
    return None, dados;
  }

  method Run(db: Database, ui: Ui, rows: seq<RawRow>, fails: nat -> bool,
             periodoInicial: string, periodoFinal: string) returns (log: RunLog)
    modifies db
    ensures log == RunSpec(ui, rows, fails, periodoInicial, periodoFinal)
    ensures db.empresas == RunTable(old(db.empresas), log)
  {
    var stop, dados := Cadastro(db, ui, rows, fails);
    if stop.Some? {
      return stop.value;
    }
    Launched(ui);
    if !SessionOk(ui, SelectSteps) {
      return RunLog(dados, true, None, Some(BrowserError), Handled(ui, Some(BrowserError)));
    }
    var b := EncerrarMovimento(ui, periodoInicial, periodoFinal);
    var caught := if b.end.Raised? then Some(b.end.error) else None;
    return RunLog(dados, true, Some(b), caught, Handled(ui, caught));
  }

  /** run ends normally unless the browser could not be launched (before the try)
      or it caught an exception and its error screenshot raised too: a failed
      login, roster, save, search or batch is never signalled. */
  lemma RunSwallows(ui: Ui, rows: seq<RawRow>, fails: nat -> bool, batch: Lote)
    ensures var log := Swallowing(ui, rows, fails, batch);
      (log.end == Completed <==> !ui.session(Launch) && (log.caught.None? || !ui.session(ErrorScreenshot)))
      && (log.end.Raised? ==> log.end == Raised(BrowserError))
      && (log.caught.None? <==> ui.session(Launch) || (log.batch.Some? && log.batch.value.end == Completed))
      && (ui.session(Launch) ==> log.batch.None? && !log.saved)
  {
    var log := Swallowing(ui, rows, fails, batch);
    if !ui.session(Launch) {
      assert log.end == Handled(ui, log.caught);
    }
  }

  /** A save that fails stops run before the client search: no period is tried
      and the table keeps its old rows. */
  lemma SaveErrorStopsRun(ui: Ui, rows: seq<RawRow>, fails: nat -> bool, batch: Lote, t: Table)
    requires SessionOk(ui, AccessSteps) && Strict(rows).Ok?
    requires exists i :: 0 <= i < |Strict(rows).value| && fails(i)
    ensures var log := Swallowing(ui, rows, fails, batch);
      log.batch == None && log.caught == Some(DatabaseError) && RunTable(t, log) == t
  {
    Launched(ui);
  }

  // ------------------------------------------------------------ __main__

  /** The process: with fewer than three arguments nothing happens; otherwise run,
      then, if run returned, a POST of status "concluido" to /api/encerramento. */
  datatype Exit = Exit(code: int, notified: bool)

  function MainExit(argc: nat, end: End): Exit
  {
    if argc <= 3 then Exit(0, false)
    else if end == Completed then Exit(0, true)
    else Exit(1, false)
  }

  /** Whatever the batch did, the script reports "concluido" once the browser is
      launched, unless an error screenshot raised; a launch that fails escapes run,
      and nothing is posted. */
  lemma ConcluidoAlwaysPosted(argc: nat, ui: Ui, rows: seq<RawRow>, fails: nat -> bool,
                              periodoInicial: string, periodoFinal: string)
    requires argc > 3
    ensures var log := RunSpec(ui, rows, fails, periodoInicial, periodoFinal);
      (MainExit(argc, log.end) == Exit(0, true) <==>
         !ui.session(Launch) && (log.caught.None? || !ui.session(ErrorScreenshot)))
      && (MainExit(argc, log.end) != Exit(0, true) ==> MainExit(argc, log.end) == Exit(1, false))
      && (!ui.session(Launch) && !ui.session(ErrorScreenshot) ==> MainExit(argc, log.end) == Exit(0, true))
  {
    RunSwallows(ui, rows, fails, Batch(ui, periodoInicial, periodoFinal));
  }
}
