/** botaca.py: the copy of copia_app.py for "Serviços Prestados", with the client
    and the range written into run: cnpj 35496100000135, 09/2024 to 03/2025.
    The period list is generated in run, after the client search, and handed to
    encerrar_movimento(page, periodos). */
module Botaca {
  import opened Runtime
  import opened Periods
  import opened Closing
  import opened Empresas
  import opened Roster
  import opened Copia

  const Cliente := "35496100000135"

  /** gerar_periodos("09", "2024", "03", "2025") as run calls it. */
  function Faixa(): Result<seq<Period>> { Periodos("09", "2024", "03", "2025") }

  /** encerrar_movimento(page, periodos): "Movimento", whose exception is re-raised,
      then the loop over the periods with every exception contained. */
  method EncerrarMovimento(ui: Ui, periodos: seq<Period>) returns (lote: Lote)
    ensures lote == Encerramento(BotacaFlow, ui, periodos)
  {
    if ui.session(MovimentoOnce) {
      return Lote([], Raised(BrowserError));
    }
    var tried := EncerrarPeriodos(BotacaFlow, ui, periodos);
    return Lote(tried, Completed);
  }

  /** What run does after the client search: generate the range; a ValueError goes
      to the handler, otherwise the batch runs. */
  function Depois(ui: Ui, faixa: Result<seq<Period>>): Lote
  {
    match faixa
    case Err(e) => Lote([], Raised(e))
    case Ok(ps) => Encerramento(BotacaFlow, ui, ps)
  }

  /** run(playwright). */
  function RunSpec(ui: Ui, rows: seq<RawRow>, fails: nat -> bool): RunLog
  {
    Swallowing(ui, rows, fails, Depois(ui, Faixa()))
  }

  method Run(db: Database, ui: Ui, rows: seq<RawRow>, fails: nat -> bool) returns (log: RunLog)
    modifies db
    ensures log == RunSpec(ui, rows, fails)
    ensures db.empresas == RunTable(old(db.empresas), log)
  {
    var stop, dados := Cadastro(db, ui, rows, fails);
    if stop.Some? {
      return stop.value;
    }
    Launched(ui);
    // the search fills Cliente, clicks its cell and "Acessar"
    if !SessionOk(ui, SelectSteps) {
      return RunLog(dados, true, None, Some(BrowserError), Handled(ui, Some(BrowserError)));
    }
    var periodos := GerarPeriodos("09", "2024", "03", "2025");
    var b: Lote;
    if periodos.Err? {
      b := Lote([], Raised(periodos.error));
    } else {
      b := EncerrarMovimento(ui, periodos.value);
    }
    var caught := if b.end.Raised? then Some(b.end.error) else None;
    return RunLog(dados, true, Some(b), caught, Handled(ui, caught));
  }

  /** The written-in range always generates: seven periods, 09/2024 first and
      03/2025 last. */
  lemma FaixaSeven()
    ensures Faixa().Ok? && |Faixa().value| == 7
    ensures Faixa().value[0] == Period("09", "2024") && Faixa().value[6] == Period("03", "2025")
  {
    Example7();
  }

  /** Once the client is selected, run reaches the batch, and the batch ends with
      an exception only when "Movimento" raises; otherwise all seven periods are
      tried in order. */
  lemma BatchReached(ui: Ui, rows: seq<RawRow>, fails: nat -> bool)
    requires SessionOk(ui, AccessSteps) && Strict(rows).Ok?
    requires forall i :: 0 <= i < |Strict(rows).value| ==> !fails(i)
    requires SessionOk(ui, SelectSteps)
    ensures var log := RunSpec(ui, rows, fails);
      log.batch.Some?
      && (log.batch.value.end == Completed <==> !ui.session(MovimentoOnce))
      && (!ui.session(MovimentoOnce) ==>
            |log.batch.value.tried| == 7
            && forall j :: 0 <= j < 7 ==> log.batch.value.tried[j].attempt == AttemptPeriod(BotacaFlow, ui, j))
  {
    Launched(ui);
    FaixaSeven();
  }

  /** A "Movimento" click that raises is re-raised by encerrar_movimento and then
      swallowed by run: no period is tried and run ends normally unless the error
      screenshot raises. */
  lemma MovimentoSwallowed(ui: Ui, rows: seq<RawRow>, fails: nat -> bool)
    requires SessionOk(ui, AccessSteps) && Strict(rows).Ok?
    requires forall i :: 0 <= i < |Strict(rows).value| ==> !fails(i)
    requires SessionOk(ui, SelectSteps) && ui.session(MovimentoOnce)
    requires !ui.session(ErrorScreenshot)
    ensures var log := RunSpec(ui, rows, fails);
      log.caught == Some(BrowserError) && log.batch == Some(Lote([], Raised(BrowserError)))
      && log.end == Completed
  {
    Launched(ui);
    FaixaSeven();
  }

  /** In botaca.py's flow a period shown as already closed (the prestado.php link)
      reaches neither the closing link, nor "Encerrar Mês.", nor the confirmation row. */
  lemma SkipRunsNoClosingStep(ui: Ui, i: nat)
    requires AttemptPeriod(BotacaFlow, ui, i).outcome == AlreadyClosed
    ensures var ran := AttemptPeriod(BotacaFlow, ui, i).ran;
      ClickEncerrarLink !in ran && ClickEncerrarMes !in ran && ClickConfirmRow !in ran
  {
    AttemptMeaning(BotacaFlow, ui, i);
  }
}
