/** The login CAPTCHA retry loop of bots/bot2.py's run and of teste.py: up to ten
    attempts, each reading the image with OCR and filling the form only with a
    four-character alphanumeric read. */
module Captcha {
  import opened Runtime
  import opened Text

  const MaxTentativas: nat := 10

  /** The page operations of one attempt that can raise. Capture covers locating
      the image, its screenshot and the OCR read, so its failure may really be
      the AttributeError of a missing image (query_selector gave None), or
      Image.open's OSError, or pytesseract's TesseractError; the model labels it
      BrowserError. Only the label differs: run's handler catches every
      Exception alike. */
  datatype Op = Capture | Fill | ClickLogin | ReadError | Refresh | SaveImage

  /** The page and the OCR engine, as seen by attempt k (numbered from 1):
      raises(k, op) says the operation raises, ocr(k) is pytesseract's raw text,
      errorNode(k) is the #mensagem-erro element's inner text, or None when
      query_selector finds no such element. */
  datatype Page = Page(raises: (nat, Op) -> bool, ocr: nat -> string, errorNode: nat -> Option<string>)

  /** What the loop does to the page, in order; a call that raises is not listed. */
  datatype Action =
    | Captured                 // the CAPTCHA image screenshotted and read
    | Filled(text: string)     // page.fill('#confirma', text)
    | LoginClicked
    | Saved(path: string)      // img.save(path) of a rejected read
    | Refreshed                // click on #div-img-captcha

  /** The OCR text is used only when it has four characters, all letters or digits. */
  predicate Accepted(t: string) { |t| == 4 && IsAlnum(t) }

  /** The file a rejected read of attempt k is saved to. */
  function ImageName(k: nat): string { "captcha_tentativa_" + DecimalString(k) + ".png" }

  datatype Verdict = Rejected | Solved | Fails(error: Exc)
  datatype AttemptResult = AttemptResult(actions: seq<Action>, verdict: Verdict)

  /** One pass of the loop body, for tentativas == k. A read accepted but refused by
      the site refreshes the image and then evaluates an f-string naming the
      undefined src, which raises NameError. */
  function Attempt(p: Page, k: nat): (a: AttemptResult)
    ensures a.verdict == Rejected ==>
      !Accepted(Strip(p.ocr(k))) && a.actions == [Captured, Saved(ImageName(k)), Refreshed]
    ensures a.verdict == Solved ==> Accepted(Strip(p.ocr(k))) && a.actions == [Captured, Filled(Strip(p.ocr(k))), LoginClicked]
  {
    if p.raises(k, Capture) then AttemptResult([], Fails(BrowserError))
    else
      var t := Strip(p.ocr(k));
      if Accepted(t) then
        if p.raises(k, Fill) then AttemptResult([Captured], Fails(BrowserError))
        else if p.raises(k, ClickLogin) then AttemptResult([Captured, Filled(t)], Fails(BrowserError))
        else if p.raises(k, ReadError) then AttemptResult([Captured, Filled(t), LoginClicked], Fails(BrowserError))
        else
          var done := [Captured, Filled(t), LoginClicked];
          match p.errorNode(k)
          case Some(x) =>
            if Strip(x) != "" then
              if p.raises(k, Refresh) then AttemptResult(done, Fails(BrowserError))
              else AttemptResult(done + [Refreshed], Fails(NameError))
            else AttemptResult(done, Solved)
          case None => AttemptResult(done, Solved)
      else if p.raises(k, SaveImage) then AttemptResult([Captured], Fails(OSError))
      else if p.raises(k, Refresh) then AttemptResult([Captured, Saved(ImageName(k))], Fails(BrowserError))
      else AttemptResult([Captured, Saved(ImageName(k)), Refreshed], Rejected)
  }

  /** Within one attempt, the form is filled only with the accepted read, as the
      second action, and login is clicked only as the third, right after it. */
  lemma AttemptShape(p: Page, k: nat)
    ensures var a := Attempt(p, k);
      (forall i :: 0 <= i < |a.actions| && a.actions[i].Filled? ==>
         i == 1 && a.actions[i].text == Strip(p.ocr(k)) && Accepted(a.actions[i].text))
      && (forall i :: 0 <= i < |a.actions| && a.actions[i] == LoginClicked ==> i == 2 && a.actions[1].Filled?)
  {
  }

  /** The actions of attempts 1..n. */
  function Prefix(p: Page, n: nat): seq<Action>
  {
    if n == 0 then [] else Prefix(p, n - 1) + Attempt(p, n).actions
  }

  predicate RejectedUpTo(p: Page, n: nat) { forall k :: 1 <= k <= n ==> Attempt(p, k).verdict == Rejected }

  /** The loop's final state: the counter, the success flag, what was done, and
      the exception that left the loop, if any. */
  datatype Run = Run(tentativas: nat, sucesso: bool, actions: seq<Action>, raised: Option<Exc>)

  /** The loop from the state after n rejected attempts. */
  function ResolveFrom(p: Page, n: nat): Run
    requires n <= MaxTentativas
    decreases MaxTentativas - n
  {
    if n == MaxTentativas then Run(n, false, Prefix(p, n), None)
    else
      match Attempt(p, n + 1).verdict
      case Rejected => ResolveFrom(p, n + 1)
      case Solved => Run(n + 1, true, Prefix(p, n + 1), None)
      case Fails(e) => Run(n + 1, false, Prefix(p, n + 1), Some(e))
  }

  function Resolve(p: Page): Run { ResolveFrom(p, 0) }

  /** The loop body for tentativas == k: capture, OCR, then either the login
      branch or the rejected-read branch. */
  method Tentativa(p: Page, k: nat) returns (a: AttemptResult)
    ensures a == Attempt(p, k)
  {
    if p.raises(k, Capture) {
      return AttemptResult([], Fails(BrowserError));
    }
    var actions := [Captured];
    var textoOcr := Strip(p.ocr(k));
    if |textoOcr| == 4 && IsAlnum(textoOcr) {
      if p.raises(k, Fill) {
        return AttemptResult(actions, Fails(BrowserError));
      }
      actions := actions + [Filled(textoOcr)];
      if p.raises(k, ClickLogin) {
        return AttemptResult(actions, Fails(BrowserError));
      }
      actions := actions + [LoginClicked];
      if p.raises(k, ReadError) {
        return AttemptResult(actions, Fails(BrowserError));
      }
      var erroCaptcha := p.errorNode(k);
      if erroCaptcha.Some? && Strip(erroCaptcha.value) != "" {
        if p.raises(k, Refresh) {
          return AttemptResult(actions, Fails(BrowserError));
        }
        actions := actions + [Refreshed];
        return AttemptResult(actions, Fails(NameError));
      }
      return AttemptResult(actions, Solved);
    }
    if p.raises(k, SaveImage) {
      return AttemptResult(actions, Fails(OSError));
    }
    actions := actions + [Saved(ImageName(k))];
    if p.raises(k, Refresh) {
      return AttemptResult(actions, Fails(BrowserError));
    }
    actions := actions + [Refreshed];
    return AttemptResult(actions, Rejected);
  }

  /** The while tentativas < 10 loop. */
  method ResolverCaptcha(p: Page) returns (r: Run)
    ensures r == Resolve(p)
  {
    var tentativas: nat := 0;
    var sucesso := false;
    var actions: seq<Action> := [];
    while tentativas < MaxTentativas
      invariant tentativas <= MaxTentativas
      invariant actions == Prefix(p, tentativas)
      invariant Resolve(p) == ResolveFrom(p, tentativas)
      decreases MaxTentativas - tentativas
    {
      var a := Tentativa(p, tentativas + 1);
      ResolveAfter(p, tentativas, actions, a);
      tentativas := tentativas + 1;
      actions := actions + a.actions;
      if a.verdict.Fails? {
        return Run(tentativas, false, actions, Some(a.verdict.error));
      }
      if a.verdict == Solved {
        sucesso := true;
        return Run(tentativas, sucesso, actions, None);
      }
    }
    return Run(tentativas, sucesso, actions, None);
  }

  /** The loop's state after one more attempt. */
  lemma ResolveAfter(p: Page, n: nat, actions: seq<Action>, a: AttemptResult)
    requires n < MaxTentativas && actions == Prefix(p, n) && a == Attempt(p, n + 1)
    ensures actions + a.actions == Prefix(p, n + 1)
    ensures a.verdict == Rejected ==> ResolveFrom(p, n) == ResolveFrom(p, n + 1)
    ensures a.verdict == Solved ==> ResolveFrom(p, n) == Run(n + 1, true, actions + a.actions, None)
    ensures a.verdict.Fails? ==> ResolveFrom(p, n) == Run(n + 1, false, actions + a.actions, Some(a.verdict.error))
  {
    ResolveStep(p, n, a.verdict);
  }

  /** One unfolding of ResolveFrom, with the attempt's verdict given. */
  lemma ResolveStep(p: Page, n: nat, v: Verdict)
    requires n < MaxTentativas && Attempt(p, n + 1).verdict == v
    ensures v == Rejected ==> ResolveFrom(p, n) == ResolveFrom(p, n + 1)
    ensures v == Solved ==> ResolveFrom(p, n) == Run(n + 1, true, Prefix(p, n + 1), None)
    ensures v.Fails? ==> ResolveFrom(p, n) == Run(n + 1, false, Prefix(p, n + 1), Some(v.error))
  {
  }

  // ------------------------------------------------------------ properties

  /** How the loop ends, from any state reached by rejected attempts: on the
      first attempt that is not rejected, or after the tenth. */
  lemma {:induction false} ResolveFromEnd(p: Page, n: nat)
    requires n <= MaxTentativas && RejectedUpTo(p, n)
    ensures var r := ResolveFrom(p, n);
      var v := Attempt(p, r.tentativas).verdict;
      n <= r.tentativas <= MaxTentativas && 1 <= r.tentativas
      && RejectedUpTo(p, r.tentativas - 1)
      && r.actions == Prefix(p, r.tentativas)
      && (v == Rejected ==> r.tentativas == MaxTentativas && !r.sucesso && r.raised == None)
      && (v == Solved ==> r.sucesso && r.raised == None)
      && (v.Fails? ==> !r.sucesso && r.raised == Some(v.error))
    decreases MaxTentativas - n
  {
    if n < MaxTentativas && Attempt(p, n + 1).verdict == Rejected {
      ResolveFromEnd(p, n + 1);
    }
  }

  /** What ten rejected reads leave behind: three actions per attempt, the image
      of attempt k saved as captcha_tentativa_k.png. */
  function RejectedTrace(n: nat): seq<Action>
  {
    if n == 0 then [] else RejectedTrace(n - 1) + [Captured, Saved(ImageName(n)), Refreshed]
  }

  lemma {:induction false} PrefixRejected(p: Page, n: nat)
    requires RejectedUpTo(p, n)
    ensures Prefix(p, n) == RejectedTrace(n)
  {
    if n > 0 {
      PrefixRejected(p, n - 1);
    }
  }

  /** A trace of rejected reads never fills the form nor clicks login. */
  lemma {:induction false} RejectedTraceNoLogin(n: nat)
    ensures forall i :: 0 <= i < |RejectedTrace(n)| ==>
      !RejectedTrace(n)[i].Filled? && RejectedTrace(n)[i] != LoginClicked
  {
    if n > 0 {
      RejectedTraceNoLogin(n - 1);
    }
  }

  /** The counter ends between 1 and 10; every attempt before the last was a
      rejected read; the actions are those of attempts 1..tentativas. */
  lemma ResolveCounter(p: Page)
    ensures var r := Resolve(p);
      1 <= r.tentativas <= MaxTentativas
      && RejectedUpTo(p, r.tentativas - 1)
      && r.actions == RejectedTrace(r.tentativas - 1) + Attempt(p, r.tentativas).actions
  {
    var r := Resolve(p);
    ResolveFromEnd(p, 0);
    PrefixRejected(p, r.tentativas - 1);
  }

  /** sucesso is set exactly when some attempt within the ten, after only rejected
      reads, has an accepted read and no error text after login. */
  lemma SucessoIff(p: Page)
    ensures Resolve(p).sucesso <==>
      exists k :: 1 <= k <= MaxTentativas && RejectedUpTo(p, k - 1) && Attempt(p, k).verdict == Solved
  {
    var r := Resolve(p);
    ResolveFromEnd(p, 0);
    if r.sucesso {
      assert Attempt(p, r.tentativas).verdict == Solved;
    }
    forall k | 1 <= k <= MaxTentativas && RejectedUpTo(p, k - 1) && Attempt(p, k).verdict == Solved
      ensures r.sucesso
    {
      // attempts before k are rejected, so the loop stops at k
      FirstStop(p, k, r.tentativas);
    }
  }

  /** Running out of attempts is a soft failure: nothing is raised, just as when
      all ten reads are rejected; the form was never filled and each attempt's
      image was saved in turn. */
  lemma SoftFailure(p: Page)
    ensures var r := Resolve(p);
      (!r.sucesso && r.raised == None) <==> RejectedUpTo(p, MaxTentativas)
    ensures var r := Resolve(p);
      RejectedUpTo(p, MaxTentativas) ==> r.tentativas == MaxTentativas && r.actions == RejectedTrace(MaxTentativas)
  {
    var r := Resolve(p);
    ResolveFromEnd(p, 0);
    var v := Attempt(p, r.tentativas).verdict;
    if !r.sucesso && r.raised == None {
      assert v == Rejected;
      RejectedExtend(p, r.tentativas);
    }
    if RejectedUpTo(p, MaxTentativas) {
      assert v == Rejected;
      PrefixRejected(p, MaxTentativas);
    }
  }

  lemma RejectedExtend(p: Page, n: nat)
    requires 1 <= n && RejectedUpTo(p, n - 1) && Attempt(p, n).verdict == Rejected
    ensures RejectedUpTo(p, n)
  {
  }

  /** Two attempts that are each preceded only by rejected reads and are not
      themselves rejected are the same attempt. */
  lemma FirstStop(p: Page, a: nat, b: nat)
    requires 1 <= a && 1 <= b && RejectedUpTo(p, a - 1) && RejectedUpTo(p, b - 1)
    requires Attempt(p, a).verdict != Rejected || a == MaxTentativas
    requires Attempt(p, b).verdict != Rejected || b == MaxTentativas
    requires a <= MaxTentativas && b <= MaxTentativas
    ensures a == b
  {
  }

  /** The form filled only with an accepted read, at most once, and login clicked
      only right after the form is filled. */
  predicate FillDiscipline(acts: seq<Action>)
  {
    (forall i :: 0 <= i < |acts| && acts[i].Filled? ==> Accepted(acts[i].text))
    && (forall i, j :: 0 <= i < |acts| && 0 <= j < |acts| && acts[i].Filled? && acts[j].Filled? ==> i == j)
    && (forall i :: 0 <= i < |acts| && acts[i] == LoginClicked ==> 0 < i && acts[i - 1].Filled?)
  }

  lemma FillDisciplineAppend(pre: seq<Action>, last: seq<Action>)
    requires forall i :: 0 <= i < |pre| ==> !pre[i].Filled? && pre[i] != LoginClicked
    requires FillDiscipline(last)
    ensures FillDiscipline(pre + last)
  {
    var acts := pre + last;
    forall i | 0 <= i < |acts| && acts[i] == LoginClicked
      ensures 0 < i && acts[i - 1].Filled?
    {
      assert acts[i] == last[i - |pre|];
      assert acts[i - 1] == last[i - 1 - |pre|];
    }
    forall i, j | 0 <= i < |acts| && 0 <= j < |acts| && acts[i].Filled? && acts[j].Filled?
      ensures i == j
    {
      assert acts[i] == last[i - |pre|];
      assert acts[j] == last[j - |pre|];
    }
  }

  lemma FillOnlyAccepted(p: Page)
    ensures FillDiscipline(Resolve(p).actions)
  {
    var r := Resolve(p);
    ResolveCounter(p);
    RejectedTraceNoLogin(r.tentativas - 1);
    var last := Attempt(p, r.tentativas).actions;
    AttemptShape(p, r.tentativas);
    FillDisciplineAppend(RejectedTrace(r.tentativas - 1), last);
  }

  /** A read the site refuses never leads to a retry: the loop leaves by the
      NameError of the undefined src, on that very attempt. */
  lemma RefusedLoginRaises(p: Page, k: nat)
    requires 1 <= k <= MaxTentativas && RejectedUpTo(p, k - 1)
    requires Accepted(Strip(p.ocr(k)))
    requires !p.raises(k, Capture) && !p.raises(k, Fill) && !p.raises(k, ClickLogin)
    requires !p.raises(k, ReadError) && !p.raises(k, Refresh)
    requires p.errorNode(k).Some? && Strip(p.errorNode(k).value) != ""
    ensures Resolve(p).tentativas == k && Resolve(p).raised == Some(NameError) && !Resolve(p).sucesso
  {
    var r := Resolve(p);
    ResolveFromEnd(p, 0);
    assert Attempt(p, k).verdict == Fails(NameError);
    FirstStop(p, k, r.tentativas);
  }
}
