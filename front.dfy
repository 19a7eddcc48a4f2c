/** static/script.js: the dashboard's closing form. The period fields are
    reformatted as MM/AAAA on every keystroke, the service checkboxes choose the
    bot, and the submit handler turns the form into the JSON body of POST /encerrar. */
module Front {
  import opened Runtime
  import opened Text
  import opened Paths
  import Server

  /** The field value formatarPeriodo's input handler writes: only the digits
      (JavaScript's \D), and when there are more than two, the first two, a
      slash and at most the next four (substring(2, 6)). */
  function FormatarPeriodo(valor: string): (r: string)
    ensures |r| <= 7
  {
    var d := KeepDigits(valor);
    if |d| > 2 then d[..2] + "/" + d[2..if |d| < 6 then |d| else 6] else d
  }

  /** String.prototype.replace('/', ''): only the first slash is deleted. */
  function ReplaceFirst(s: string, c: char): string
  {
    if s == [] then []
    else if s[0] == c then s[1..]
    else [s[0]] + ReplaceFirst(s[1..], c)
  }

  /** /^\d{6}$/.test(s): in JavaScript, $ does not admit a final newline. */
  predicate SixDigits(s: string) { |s| == 6 && IsDigits(s) }

  /** Deleting the non-digits of two digit strings around a slash joins them. */
  lemma DigitsAroundSlash(a: string, b: string)
    requires IsDigits(a) && IsDigits(b)
    ensures KeepDigits(a + "/" + b) == a + b
  {
    assert "/" == ['/'];
    KeepDigitsBetween(a, '/', b);
  }

  /** The digits of a formatted value: the first six digits typed. */
  lemma FormatarDigits(valor: string)
    ensures var d := KeepDigits(valor);
      KeepDigits(FormatarPeriodo(valor)) == d[..if |d| < 6 then |d| else 6]
  {
    var d := KeepDigits(valor);
    if |d| > 2 {
      var m := if |d| < 6 then |d| else 6;
      DigitsAroundSlash(d[..2], d[2..m]);
      assert d[..2] + d[2..m] == d[..m];
    }
  }

  /** Formatting a formatted value changes nothing: the handler can fire again on
      its own output. */
  lemma FormatarIdempotent(valor: string)
    ensures FormatarPeriodo(FormatarPeriodo(valor)) == FormatarPeriodo(valor)
  {
    FormatarDigits(valor);
    var d := KeepDigits(valor);
    if |d| > 2 {
      var m := if |d| < 6 then |d| else 6;
      var e := d[..m];
      assert e[..2] == d[..2] && e[2..m] == d[2..m];
    }
  }

  lemma {:induction false} ReplaceFirstSkip(a: string, c: char, b: string)
    requires c !in a
    ensures ReplaceFirst(a + [c] + b, c) == a + b
    decreases |a|
  {
    if a == [] {
      assert a + [c] + b == [c] + b;
    } else {
      assert a[0] in a;
      assert forall x :: x in a[1..] ==> x in a;
      ReplaceFirstSkip(a[1..], c, b);
      assert (a + [c] + b)[1..] == a[1..] + [c] + b;
      assert [a[0]] + (a[1..] + b) == a + b;
    }
  }

  lemma {:induction false} ReplaceFirstNone(s: string, c: char)
    requires c !in s
    ensures ReplaceFirst(s, c) == s
    decreases |s|
  {
    if s != [] {
      assert s[0] in s;
      assert forall x :: x in s[1..] ==> x in s;
      ReplaceFirstNone(s[1..], c);
    }
  }

  /** A formatted period passes the submit check exactly when six or more digits
      were typed, and it is then sent as those first six digits. */
  lemma FormattedSubmitIff(valor: string)
    ensures var s := ReplaceFirst(FormatarPeriodo(valor), '/');
      (SixDigits(s) <==> |KeepDigits(valor)| >= 6)
      && (SixDigits(s) ==> s == KeepDigits(valor)[..6])
  {
    var d := KeepDigits(valor);
    if |d| > 2 {
      var m := if |d| < 6 then |d| else 6;
      assert '/' !in d[..2] by {
        forall i | 0 <= i < 2 ensures d[..2][i] != '/' { assert IsDigit(d[i]); }
      }
      ReplaceFirstSkip(d[..2], '/', d[2..m]);
      assert d[..2] + d[2..m] == d[..m];
    } else {
      assert '/' !in d by {
        forall i | 0 <= i < |d| ensures d[i] != '/' { assert IsDigit(d[i]); }
      }
      ReplaceFirstNone(d, '/');
    }
  }

  /** What the server does with the same value: it deletes every slash, so a
      submitted period validates there too. */
  lemma SubmittedValidatesOnServer(s: string)
    requires SixDigits(s)
    ensures Server.ValidarPeriodo(Remove(s, '/'))
  {
    assert forall i :: 0 <= i < |s| ==> s[i] != '/' by {
      forall i | 0 <= i < |s| ensures s[i] != '/' { assert IsDigit(s[i]); }
    }
    Server.DigitsThenEndIff(s, 6);
  }

  /** The bot each checkbox selects. */
  const BotTomados := "bots/bot.py"
  const BotPrestados := "bots/bot2.py"

  /** The form's fields, as the handlers read and write them. */
  class Formulario {
    var cnpj: string
    var periodoInicial: string
    var periodoFinal: string
    var botPath: string

    constructor(cnpj: string)
      ensures this.cnpj == cnpj && periodoInicial == "" && periodoFinal == "" && botPath == ""
    {
      this.cnpj := cnpj;
      periodoInicial := "";
      periodoFinal := "";
      botPath := "";
    }

    /** abrirModal: the row's cnpj is copied in and both periods are cleared; the
        bot choice is not reset, so it carries over from the previous opening. */
    method AbrirModal(cnpj: string)
      modifies this
      ensures this.cnpj == cnpj && periodoInicial == "" && periodoFinal == ""
      ensures botPath == old(botPath)
    {
      this.cnpj := cnpj;
      periodoInicial := "";
      periodoFinal := "";
    }

    /** The input handler on periodoInicial. */
    method InputInicial()
      modifies this
      ensures periodoInicial == FormatarPeriodo(old(periodoInicial))
      ensures cnpj == old(cnpj) && periodoFinal == old(periodoFinal) && botPath == old(botPath)
    {
      periodoInicial := FormatarPeriodo(periodoInicial);
    }

    /** The input handler on periodoFinal. */
    method InputFinal()
      modifies this
      ensures periodoFinal == FormatarPeriodo(old(periodoFinal))
      ensures cnpj == old(cnpj) && periodoInicial == old(periodoInicial) && botPath == old(botPath)
    {
      periodoFinal := FormatarPeriodo(periodoFinal);
    }

    /** The change handler of servicosTomados: checking it selects bots/bot.py;
        unchecking it leaves the choice as it was. */
    method ChangeTomados(checked: bool)
      modifies this
      ensures botPath == if checked then BotTomados else old(botPath)
      ensures cnpj == old(cnpj) && periodoInicial == old(periodoInicial) && periodoFinal == old(periodoFinal)
    {
      if checked {
        botPath := BotTomados;
      }
    }

    /** The change handler of servicosPrestados: bots/bot2.py. */
    method ChangePrestados(checked: bool)
      modifies this
      ensures botPath == if checked then BotPrestados else old(botPath)
      ensures cnpj == old(cnpj) && periodoInicial == old(periodoInicial) && periodoFinal == old(periodoFinal)
    {
      if checked {
        botPath := BotPrestados;
      }
    }

    /** The submit handler: the browser's own validity check (valido), then the
        first slash of each period deleted and the six-digit test; the JSON body
        sent, or None when the handler returns early. */
    method Submit(valido: bool) returns (body: Option<map<string, string>>)
      ensures body.Some? <==>
        valido && SixDigits(ReplaceFirst(periodoInicial, '/')) && SixDigits(ReplaceFirst(periodoFinal, '/'))
      ensures body.Some? ==> body.value == map[
        "cnpj" := cnpj,
        "periodo_inicial" := ReplaceFirst(periodoInicial, '/'),
        "periodo_final" := ReplaceFirst(periodoFinal, '/'),
        "bot_path" := botPath]
    {
      if !valido {
        return None;
      }
      var inicial := ReplaceFirst(periodoInicial, '/');
      var final := ReplaceFirst(periodoFinal, '/');
      if !SixDigits(inicial) || !SixDigits(final) {
        return None;
      }
      return Some(map["cnpj" := cnpj, "periodo_inicial" := inicial, "periodo_final" := final, "bot_path" := botPath]);
    }
  }

  /** Two plain components joined by a slash make a plain path. */
  lemma TwoComponents(a: string, b: string)
    requires Plain(a) && Plain(b)
    ensures PlainPath(a + "/" + b)
  {
    SplitAppend(a, b);
    SplitSegment(a);
    SplitSegment(b);
  }

  /** A two-component relative path resolves beneath the bots directory. */
  lemma TwoComponentsBeneath(dir: string, cwd: string, a: string, b: string)
    requires Plain(a) && Plain(b)
    ensures BotAbsolute(dir, cwd, a + "/" + b) == BotsDir(dir, cwd) + "/" + (a + "/" + b)
  {
    TwoComponents(a, b);
    BeneathResolves(dir, cwd, a + "/" + b);
  }

  /** The path the form sends is relative to the project, but server.py joins it
      to the bots directory: "bots/bot2.py" resolves to a bots directory inside
      the bots directory. */
  lemma PrestadosNested(dir: string, cwd: string)
    ensures BotAbsolute(dir, cwd, BotPrestados) == BotsDir(dir, cwd) + "/" + BotPrestados
    ensures BotPrestados[..5] == "bots/"
  {
    PlainBots();
    assert Plain("bot2.py");
    assert BotPrestados == "bots" + "/" + "bot2.py";
    TwoComponentsBeneath(dir, cwd, "bots", "bot2.py");
  }
}
