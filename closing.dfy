/** One period's "encerramento" on the portal, driven through the browser: open
    the period, look for the "already closed" link, and run the closing steps
    only when it is absent. Every browser call is an oracle. */
module Closing {
  import opened Runtime
  import opened Periods

  /** The browser calls of the per-period flows, by what they do on the page. */
  datatype Step =
    | ClickMovimento         // the "Movimento" button of the main menu
    | WaitAlterar            // wait for the "Alterar" button
    | ClickAlterar
    | SelectMonth            // select[name="mes"].select_option(mes)
    | FillYear               // input[name="ano"].fill(ano)
    | ClickOk
    | WaitEncerramentoMenu
    | ClickEncerramentoMenu
    | WaitEncerrarLink       // wait for the link to the closing page
    | ClickEncerrarLink
    | WaitEncerrarMes        // wait for the "Encerrar Mês" button
    | ClickEncerrarMes
    | ClickFechar            // the .iconFechar close icon
    | ClickConfirmRow        // the div in the "Encerramento Livro Fiscal" row

  /** The browser calls outside the per-period loop. */
  datatype SessionStep =
    | Launch                 // chromium.launch, new_context and new_page, before the try of run
    | Goto                   // page.goto of the portal, then the title check
    | ClickContadores        // the link in the accountants' access row
    | FillCrc
    | FillSenha
    | ClickLogin             // the login button, after the manual CAPTCHA wait
    | ClickContribuinte
    | ClickCarteira          // "Carteira de Clientes"
    | WaitRows               // the first tr.line row
    | CountRows              // rows.count() of the tr.line rows
    | FillCnpj               // #cnpj.fill(cnpj)
    | ClickPesquisar
    | ClickCnpjCell          // the td.cell.center holding the cnpj
    | ClickAcessar
    | MovimentoOnce          // "Movimento", clicked once before the loop
    | ErrorScreenshot        // page.screenshot("erro_geral.png") in the handler of run

  /** is_visible() of the "A Escrituração já foi Encerrada" link. */
  datatype Probe = Visible | NotVisible | ProbeRaised

  /** The browser as seen by the batch: raises(i, s) says step s raises while
      period i (numbered from 0) is processed, probe(i) is what the
      already-closed check returns there, shotRaises(i) says the error screenshot
      of period i raises, and session(s) says that a step outside the loop raises. */
  datatype Ui = Ui(raises: (nat, Step) -> bool, probe: nat -> Probe, shotRaises: nat -> bool,
                   session: SessionStep -> bool)

  /** A straight-line run of session steps completes. */
  predicate SessionOk(ui: Ui, steps: seq<SessionStep>) { forall j :: 0 <= j < |steps| ==> !ui.session(steps[j]) }

  /** The client search that precedes every batch: fill the cnpj, search, click
      its cell, then "Acessar". */
  const SelectSteps: seq<SessionStep> := [FillCnpj, ClickPesquisar, ClickCnpjCell, ClickAcessar]

  /** The steps before the already-closed check, and the closing steps after it. */
  datatype Flow = Flow(open: seq<Step>, close: seq<Step>)

  datatype Outcome = AlreadyClosed | Closed | Failed

  /** The steps that completed, and how the period ended. */
  datatype Attempt = Attempt(ran: seq<Step>, outcome: Outcome)

  /** How many steps complete before the first one that raises. */
  function Completed(ui: Ui, i: nat, steps: seq<Step>): (k: nat)
    ensures k <= |steps|
    ensures forall j :: 0 <= j < k ==> !ui.raises(i, steps[j])
    ensures k < |steps| ==> ui.raises(i, steps[k])
  {
    if steps == [] || ui.raises(i, steps[0]) then 0 else 1 + Completed(ui, i, steps[1..])
  }

  predicate NoneRaises(ui: Ui, i: nat, steps: seq<Step>) { forall j :: 0 <= j < |steps| ==> !ui.raises(i, steps[j]) }

  /** The per-period try block: the open steps, the check, then the closing steps;
      the first exception ends the period. */
  function AttemptPeriod(flow: Flow, ui: Ui, i: nat): Attempt
  {
    var k := Completed(ui, i, flow.open);
    if k < |flow.open| then Attempt(flow.open[..k], Failed)
    else match ui.probe(i)
      case ProbeRaised => Attempt(flow.open, Failed)
      case Visible => Attempt(flow.open, AlreadyClosed)
      case NotVisible =>
        var c := Completed(ui, i, flow.close);
        if c < |flow.close| then Attempt(flow.open + flow.close[..c], Failed)
        else Attempt(flow.open + flow.close, Closed)
  }

  /** A period shown as already closed runs every open step and none of the closing
      steps; the closing steps run only when the link is absent; the period counts
      as closed exactly when no step raised and the link was absent. */
  lemma AttemptMeaning(flow: Flow, ui: Ui, i: nat)
    ensures var a := AttemptPeriod(flow, ui, i);
      (a.outcome == AlreadyClosed <==> NoneRaises(ui, i, flow.open) && ui.probe(i) == Visible)
      && (a.outcome == AlreadyClosed ==> a.ran == flow.open)
      && (a.outcome == Closed <==>
            NoneRaises(ui, i, flow.open) && ui.probe(i) == NotVisible && NoneRaises(ui, i, flow.close))
      && (a.outcome == Closed ==> a.ran == flow.open + flow.close)
      && (|a.ran| > |flow.open| ==> ui.probe(i) == NotVisible)
      && a.ran <= flow.open + flow.close
  {
    var a := AttemptPeriod(flow, ui, i);
    var k := Completed(ui, i, flow.open);
    if k < |flow.open| {
      assert !NoneRaises(ui, i, flow.open);
      assert flow.open[..k] <= flow.open + flow.close;
    } else if ui.probe(i) == NotVisible {
      var c := Completed(ui, i, flow.close);
      if c < |flow.close| {
        assert !NoneRaises(ui, i, flow.close);
        assert flow.open + flow.close[..c] <= flow.open + flow.close;
      }
    }
  }

  /** How a part of a script ended: normally, or by an exception that escaped. */
  datatype End = Completed | Raised(error: Exc)

  /** One period of a batch and what its try block did. */
  datatype Tried = Tried(periodo: Period, attempt: Attempt)

  // ------------------------------------------------------------ the variants

  /** bots/bot2.py: "Movimento" is clicked inside each period's try; the closing
      page is reached through ../fechamento/tomado.php and left by the close icon. */
  const Bot2Flow := Flow(
    [ClickMovimento, WaitAlterar, ClickAlterar, SelectMonth, FillYear, ClickOk,
     WaitEncerramentoMenu, ClickEncerramentoMenu],
    [WaitEncerrarLink, ClickEncerrarLink, WaitEncerrarMes, ClickEncerrarMes, ClickFechar])

  /** bots/copia_app.py: "Movimento" is clicked once before the loop; the closing
      ends with a click in the "Serviços Tomados" row. */
  const CopiaFlow := Flow(
    [ClickAlterar, SelectMonth, FillYear, ClickOk, ClickEncerramentoMenu],
    [ClickEncerrarLink, ClickEncerrarMes, ClickConfirmRow])

  /** botaca.py: as copia_app.py, with waits on "Alterar" and on the link, for
      ../fechamento/prestado.php and the "Serviços Prestados" row. */
  const BotacaFlow := Flow(
    [WaitAlterar, ClickAlterar, SelectMonth, FillYear, ClickOk, ClickEncerramentoMenu],
    [WaitEncerrarLink, ClickEncerrarLink, ClickEncerrarMes, ClickConfirmRow])

  /** In bot2.py's flow, an already-closed period never reaches the closing link,
      the "Encerrar Mês" button or the close icon. */
  lemma Bot2SkipRunsNoClosingStep(ui: Ui, i: nat)
    requires AttemptPeriod(Bot2Flow, ui, i).outcome == AlreadyClosed
    ensures var ran := AttemptPeriod(Bot2Flow, ui, i).ran;
      ClickEncerrarLink !in ran && ClickEncerrarMes !in ran && ClickFechar !in ran
  {
    AttemptMeaning(Bot2Flow, ui, i);
  }
}
