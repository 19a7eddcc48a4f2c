/** teste.py: a script with no function and no handler. It opens the portal,
    follows the accountants' link, fills the credentials, runs the CAPTCHA loop
    of bots/bot2.py on its own, waits and closes the browser. */
module Teste {
  import opened Runtime
  import opened Text
  import opened Closing
  import opened Captcha

  /** The steps before the loop: the browser's launch, goto (without the title
      check), the accountants' link, the CRC and the password. */
  const Abertura: seq<SessionStep> := [Launch, Goto, ClickContadores, FillCrc, FillSenha]

  /** What the script did: the loop's final state, if the loop was reached, and
      whether the script ended or an exception left it. */
  datatype Script = Script(captcha: Option<Captcha.Run>, end: End)

  function ScriptSpec(ui: Ui, cp: Page): Script
  {
    if !SessionOk(ui, Abertura) then Script(None, Raised(BrowserError))
    else
      var c := Resolve(cp);
      Script(Some(c), if c.raised.Some? then Raised(c.raised.value) else Completed)
  }

  /** The module-level statements, in order. */
  method Executar(ui: Ui, cp: Page) returns (s: Script)
    ensures s == ScriptSpec(ui, cp)
  {
    if !SessionOk(ui, Abertura) {
      return Script(None, Raised(BrowserError));
    }
    var c := ResolverCaptcha(cp);
    if c.raised.Some? {
      return Script(Some(c), Raised(c.raised.value));
    }
    if !c.sucesso {
      // "Não foi possível resolver o captcha após várias tentativas."
    }
    // page.wait_for_timeout(5000), browser.close()
    return Script(Some(c), Completed);
  }

  /** The script ends normally exactly when the opening steps and every loop body
      raise nothing; running out of attempts is among the normal ends, and then
      all ten attempts were made and refused. */
  lemma EndsIff(ui: Ui, cp: Page)
    ensures var s := ScriptSpec(ui, cp);
      (s.end == Completed <==> SessionOk(ui, Abertura) && Resolve(cp).raised.None?)
      && (s.end == Completed && !s.captcha.value.sucesso ==>
            s.captcha.value.tentativas == MaxTentativas && RejectedUpTo(cp, MaxTentativas))
  {
    if SessionOk(ui, Abertura) && Resolve(cp).raised.None? && !Resolve(cp).sucesso {
      SoftFailure(cp);
    }
  }

  /** A login refused by the site (text in #mensagem-erro) ends the script with the
      NameError of the undefined src. */
  lemma RefusedLoginEndsScript(ui: Ui, cp: Page, k: nat)
    requires SessionOk(ui, Abertura)
    requires 1 <= k <= MaxTentativas && RejectedUpTo(cp, k - 1)
    requires Accepted(Strip(cp.ocr(k)))
    requires !cp.raises(k, Capture) && !cp.raises(k, Fill) && !cp.raises(k, Op.ClickLogin)
    requires !cp.raises(k, ReadError) && !cp.raises(k, Refresh)
    requires cp.errorNode(k).Some? && Strip(cp.errorNode(k).value) != ""
    ensures ScriptSpec(ui, cp).end == Raised(NameError)
  {
    RefusedLoginRaises(cp, k);
  }
}
