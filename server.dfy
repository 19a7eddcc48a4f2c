/** server.py: the Flask job coordinator. POST /encerrar validates a request,
    marks the client em_processo and hands the bot to a worker thread; the worker
    (executar_bot) runs the bot as a subprocess and records concluido or erro;
    POST /encerramento_concluido is the completion callback. The status table
    is empresas.db, written through a commit/rollback wrapper. */
module Server {
  import opened Runtime
  import opened Text
  import opened Empresas
  import opened Paths

  // ------------------------------------------------------------ validators

  /** re.match(r'^\d{n}$', s) from the start of s: n digits, then the end of the
      string, where Python's $ also matches before one final newline. */
  predicate DigitsThenEnd(s: string, n: nat)
    decreases n
  {
    if n == 0 then s == "" || s == "\n"
    else |s| > 0 && IsDigit(s[0]) && DigitsThenEnd(s[1..], n - 1)
  }

  /** validar_cnpj: ^\d{14}$. */
  predicate ValidarCnpj(cnpj: string) { DigitsThenEnd(cnpj, 14) }

  /** validar_periodo: ^\d{6}$ (MMAAAA). */
  predicate ValidarPeriodo(periodo: string) { DigitsThenEnd(periodo, 6) }

  /** The pattern holds exactly for n digits, optionally followed by one newline. */
  lemma {:induction false} DigitsThenEndIff(s: string, n: nat)
    ensures DigitsThenEnd(s, n) <==>
      (|s| == n && IsDigits(s)) || (|s| == n + 1 && IsDigits(s[..n]) && s[n] == '\n')
    decreases n
  {
    if n > 0 && |s| > 0 {
      DigitsThenEndIff(s[1..], n - 1);
      if |s| == n + 1 {
        assert s[1..][..n - 1] == s[1..n];
        assert s[..n] == [s[0]] + s[1..n];
      }
      if |s| == n {
        assert s == [s[0]] + s[1..];
      }
    }
  }

  /** After the cnpj is stripped of every non-digit, validation is a length test:
      the newline case can no longer arise. */
  lemma NormalisedCnpjIff(raw: string)
    ensures ValidarCnpj(KeepDigits(raw)) <==> |KeepDigits(raw)| == 14
  {
    var c := KeepDigits(raw);
    DigitsThenEndIff(c, 14);
    if |c| == 15 { assert IsDigit(c[14]); }
  }

  /** Deleting "/" keeps a final newline, so a period with one passes validation. */
  lemma PeriodoWithNewline(periodo: string)
    requires |periodo| == 6 && IsDigits(periodo)
    ensures ValidarPeriodo(Remove(periodo + "\n", '/'))
  {
    var s := periodo + "\n";
    assert forall i :: 0 <= i < |s| ==> s[i] != '/' by {
      forall i | 0 <= i < |s| ensures s[i] != '/' {
        if i < 6 { assert IsDigit(s[i]); }
      }
    }
    DigitsThenEndIff(s, 6);
    assert s[..6] == periodo;
  }

  /** Punctuation is ignored: a cnpj typed as 35.496.100/0001-35 validates as
      35496100000135 does. */
  lemma PunctuationIgnored(a: string, c: char, b: string)
    requires !IsDigit(c)
    ensures KeepDigits(a + [c] + b) == KeepDigits(a + b)
    ensures ValidarCnpj(KeepDigits(a + [c] + b)) == ValidarCnpj(KeepDigits(a + b))
  {
    KeepDigitsAppend(a, [c] + b);
    KeepDigitsAppend([c], b);
    KeepDigitsAppend(a, b);
    assert a + [c] + b == a + ([c] + b);
    assert KeepDigits([c]) == [];
  }

  // ------------------------------------------------------------ the status table

  /** atualizar_status under transacao_db: the PRAGMA, the column migration and the
      UPDATE, committed together; falha says that sqlite raises, and then the
      transaction is rolled back and the error re-raised. */
  method Atualizar(db: Database, cnpj: string, status: string, progresso: string, falha: bool)
    returns (err: Option<Exc>)
    modifies db
    ensures falha ==> err == Some(DatabaseError) && db.empresas == old(db.empresas)
    ensures !falha ==> err == None && db.empresas == UpdateStatus(old(db.empresas), cnpj, status, progresso)
  {
    if falha {
      return Some(DatabaseError);
    }
    db.empresas := UpdateStatus(db.empresas, cnpj, status, progresso);
    return None;
  }

  // ------------------------------------------------------------ requests

  /** A JSON request body: an object of string fields, or None when it is null. */
  type Json = Option<map<string, string>>

  /** What a handler returns: an error message, an exception turned into a 500, a
      started job echoing the normalised cnpj and the absolute bot path, or the
      callback's acknowledgement. */
  datatype Reply =
    | Failed(message: string)
    | Crashed(error: Exc)
    | Started(cnpj: string, botPath: string)  // server.py's 202
    | Queued(cnpj: string)                    // bkp-sever.py's 202, without a bot path
    | Registered

  datatype Response = Response(code: nat, reply: Reply)

  /** The arguments of executar_bot, handed to the thread pool. */
  datatype Job = Job(botPath: string, cnpj: string, periodoInicial: string, periodoFinal: string)

  /** What iniciar_encerramento did: its response and the job it submitted. */
  datatype Inicio = Inicio(resp: Response, job: Option<Job>)

  /** The fields /encerrar requires. */
  const Required: seq<string> := ["bot_path", "cnpj", "periodo_inicial", "periodo_final"]

  /** all(k in dados for k in Required). */
  predicate HasAll(d: map<string, string>)
  {
    "bot_path" in d && "cnpj" in d && "periodo_inicial" in d && "periodo_final" in d
  }

  const Ausentes := Response(400, Failed("Parâmetros ausentes"))
  const CnpjInvalido := Response(400, Failed("CNPJ inválido"))
  const PeriodoInvalido := Response(400, Failed("Período inválido. Use MMAAAA"))
  const CaminhoInvalido := Response(400, Failed("Caminho do bot inválido"))
  const NaoEncontrado := Response(400, Failed("Bot selecionado não encontrado"))

  /** POST /encerrar, with dir the server's directory, cwd the working directory,
      existe the file system's os.path.exists and falha whether the status update
      raises. A null body makes `k in dados` raise a TypeError, which the handler
      turns into a 500. */
  function Iniciar(dados: Json, dir: string, cwd: string, existe: string -> bool, falha: bool): Inicio
  {
    if dados.None? then Inicio(Response(500, Crashed(TypeError)), None)
    else
      var d := dados.value;
      if !HasAll(d) then Inicio(Ausentes, None)
      else
        var cnpj := KeepDigits(d["cnpj"]);
        var pi := Remove(d["periodo_inicial"], '/');
        var pf := Remove(d["periodo_final"], '/');
        var abs := BotAbsolute(dir, cwd, d["bot_path"]);
        if !ValidarCnpj(cnpj) then Inicio(CnpjInvalido, None)
        else if !(ValidarPeriodo(pi) && ValidarPeriodo(pf)) then Inicio(PeriodoInvalido, None)
        else if !PathAccepted(dir, cwd, d["bot_path"]) then Inicio(CaminhoInvalido, None)
        else if !existe(abs) then Inicio(NaoEncontrado, None)
        else if falha then Inicio(Response(500, Crashed(DatabaseError)), None)
        else Inicio(Response(202, Started(cnpj, abs)), Some(Job(abs, cnpj, pi, pf)))
  }

  /** iniciar_encerramento: the status update happens only once every check passed,
      and the job is submitted only once it committed. */
  method IniciarEncerramento(db: Database, dados: Json, dir: string, cwd: string,
                             existe: string -> bool, falha: bool) returns (r: Inicio)
    modifies db
    ensures r == Iniciar(dados, dir, cwd, existe, falha)
    ensures db.empresas == if r.job.Some? then UpdateStatus(old(db.empresas), r.job.value.cnpj, "em_processo", "0")
                           else old(db.empresas)
  {
    if dados.None? {
      return Inicio(Response(500, Crashed(TypeError)), None);
    }
    var d := dados.value;
    if !HasAll(d) {
      return Inicio(Ausentes, None);
    }
    var cnpj := KeepDigits(d["cnpj"]);
    var periodoInicial := Remove(d["periodo_inicial"], '/');
    var periodoFinal := Remove(d["periodo_final"], '/');
    var botPath := d["bot_path"];
    if !ValidarCnpj(cnpj) {
      return Inicio(CnpjInvalido, None);
    }
    if !(ValidarPeriodo(periodoInicial) && ValidarPeriodo(periodoFinal)) {
      return Inicio(PeriodoInvalido, None);
    }
    var absoluto := BotAbsolute(dir, cwd, botPath);
    var botsDir := BotsDir(dir, cwd);
    if !StartsWith(absoluto, botsDir) {
      return Inicio(CaminhoInvalido, None);
    }
    if !existe(absoluto) {
      return Inicio(NaoEncontrado, None);
    }
    var err := Atualizar(db, cnpj, "em_processo", "0", falha);
    if err.Some? {
      return Inicio(Response(500, Crashed(err.value)), None);
    }
    return Inicio(Response(202, Started(cnpj, absoluto)), Some(Job(absoluto, cnpj, periodoInicial, periodoFinal)));
  }

  /** A missing field is reported before anything else is looked at. */
  lemma MissingFieldFirst(d: map<string, string>, dir: string, cwd: string, existe: string -> bool, falha: bool, k: nat)
    requires k < |Required| && Required[k] !in d
    ensures Iniciar(Some(d), dir, cwd, existe, falha) == Inicio(Ausentes, None)
  {
    assert Required[k] == "bot_path" || Required[k] == "cnpj" || Required[k] == "periodo_inicial" || Required[k] == "periodo_final";
  }

  /** A request is accepted (202) exactly when the body has every field, the
      normalised cnpj and periods validate, the bot path passes the prefix check
      and exists, and the status update commits. Then the reply echoes the
      normalised cnpj and the job carries the normalised values; every other
      response submits nothing. */
  lemma AcceptedIff(dados: Json, dir: string, cwd: string, existe: string -> bool, falha: bool)
    ensures var r := Iniciar(dados, dir, cwd, existe, falha);
      (r.resp.code == 202 <==>
         dados.Some? && HasAll(dados.value)
         && |KeepDigits(dados.value["cnpj"])| == 14
         && ValidarPeriodo(Remove(dados.value["periodo_inicial"], '/'))
         && ValidarPeriodo(Remove(dados.value["periodo_final"], '/'))
         && PathAccepted(dir, cwd, dados.value["bot_path"])
         && existe(BotAbsolute(dir, cwd, dados.value["bot_path"]))
         && !falha)
      && (r.job.Some? <==> r.resp.code == 202)
      && (r.resp.code == 202 ==>
            var d := dados.value;
            r.resp.reply.cnpj == KeepDigits(d["cnpj"])
            && r.job.value == Job(BotAbsolute(dir, cwd, d["bot_path"]), KeepDigits(d["cnpj"]),
                                  Remove(d["periodo_inicial"], '/'), Remove(d["periodo_final"], '/')))
  {
    if dados.Some? && HasAll(dados.value) {
      NormalisedCnpjIff(dados.value["cnpj"]);
    }
  }

  /** A bot path of plain components (as "bot2.py") passes the path check and
      runs the file beneath the bots directory. */
  lemma PlainBotPathStarts(d: map<string, string>, dir: string, cwd: string, existe: string -> bool)
    requires HasAll(d) && PlainPath(d["bot_path"])
    requires ValidarCnpj(KeepDigits(d["cnpj"]))
    requires ValidarPeriodo(Remove(d["periodo_inicial"], '/')) && ValidarPeriodo(Remove(d["periodo_final"], '/'))
    requires existe(BotsDir(dir, cwd) + "/" + d["bot_path"])
    ensures var r := Iniciar(Some(d), dir, cwd, existe, false);
      r.resp.code == 202 && r.job.value.botPath == BotsDir(dir, cwd) + "/" + d["bot_path"]
  {
    BeneathResolves(dir, cwd, d["bot_path"]);
    BeneathAccepted(dir, cwd, d["bot_path"]);
  }

  /** The prefix check is a string test: "../" followed by a path starting with
      "bots" (a sibling directory such as bots_old) passes it, any other "../"
      path is refused with "Caminho do bot inválido". */
  lemma SiblingPathCheck(d: map<string, string>, dir: string, cwd: string, existe: string -> bool, falha: bool, q: string)
    requires HasAll(d) && d["bot_path"] == "../" + q && PlainPath(q)
    requires ValidarCnpj(KeepDigits(d["cnpj"]))
    requires ValidarPeriodo(Remove(d["periodo_inicial"], '/')) && ValidarPeriodo(Remove(d["periodo_final"], '/'))
    ensures var r := Iniciar(Some(d), dir, cwd, existe, falha);
      r.resp != CaminhoInvalido <==> StartsWith(q, "bots")
  {
    ParentIff(dir, cwd, q);
  }

  // ------------------------------------------------------------ the worker

  const EmProcesso := StatusWrite("em_processo", "0")
  const Concluido := StatusWrite("concluido", "100")
  const Erro := StatusWrite("erro", "0")

  /** How executar_bot ended: it returned True or False, or an exception escaped it
      (and was lost in the thread pool's future). */
  datatype Fim = Returned(value: bool) | Escaped(error: Exc)

  /** What executar_bot did: the status writes that committed, in order, whether it
      reached notificar_conclusao, and how it ended. */
  datatype Execucao = Execucao(writes: seq<StatusWrite>, notified: bool, fim: Fim)

  /** The except branch, reached with the writes so far and the k-th call to
      atualizar_status next: erro/0, the event, the notification, False; a status
      update that raises here escapes. */
  function Recuperar(writes: seq<StatusWrite>, k: nat, falha: nat -> bool): Execucao
  {
    if falha(k) then Execucao(writes, false, Escaped(DatabaseError))
    else Execucao(writes + [Erro], true, Returned(false))
  }

  /** executar_bot for a job: rc is the subprocess's return code (None when
      subprocess.run raised) and falha(k) says that the k-th call to
      atualizar_status raises. */
  function Executar(rc: Option<int>, falha: nat -> bool): Execucao
  {
    if falha(0) then Recuperar([], 1, falha)
    else if rc.None? then Recuperar([EmProcesso], 1, falha)
    else
      var w := if rc.value == 0 then Concluido else Erro;
      if falha(1) then Recuperar([EmProcesso], 2, falha)
      else Execucao([EmProcesso, w], true, Returned(rc.value == 0))
  }

  method ExecutarBot(db: Database, job: Job, rc: Option<int>, falha: nat -> bool) returns (x: Execucao)
    modifies db
    ensures x == Executar(rc, falha)
    ensures db.empresas == ApplyWrites(old(db.empresas), job.cnpj, x.writes)
  {
    var writes: seq<StatusWrite> := [];
    var k := 0;
    var failed := false;
    var err := Atualizar(db, job.cnpj, "em_processo", "0", falha(k));
    k := k + 1;
    if err.None? {
      writes := [EmProcesso];
      assert ApplyWrites(old(db.empresas), job.cnpj, writes) == UpdateStatus(old(db.empresas), job.cnpj, "em_processo", "0") by {
        assert writes[..0] == [];
      }
      if rc.None? {
        failed := true;
      } else {
        var w := if rc.value == 0 then Concluido else Erro;
        err := Atualizar(db, job.cnpj, w.status, w.progresso, falha(k));
        k := k + 1;
        if err.None? {
          ApplyWritesSnoc(old(db.empresas), job.cnpj, writes, w);
          writes := writes + [w];
          // socketio.emit, then notificar_conclusao
          return Execucao(writes, true, Returned(rc.value == 0));
        }
        failed := true;
      }
    } else {
      failed := true;
    }
    // except Exception: erro/0
    err := Atualizar(db, job.cnpj, "erro", "0", falha(k));
    if err.Some? {
      return Execucao(writes, false, Escaped(err.value));
    }
    ApplyWritesSnoc(old(db.empresas), job.cnpj, writes, Erro);
    writes := writes + [Erro];
    return Execucao(writes, true, Returned(false));
  }

  /** With a table that never fails, the row goes to em_processo/0 and then to
      concluido/100 on return code 0, to erro/0 on any other code or when the
      subprocess could not be run; the notification is always sent. */
  lemma Transitions(rc: Option<int>, falha: nat -> bool)
    requires forall k :: !falha(k)
    ensures var x := Executar(rc, falha);
      x.writes == [EmProcesso, if rc == Some(0) then Concluido else Erro]
      && x.notified && x.fim == Returned(rc == Some(0))
  {
  }

  /** concluido/100 is only ever written for return code 0, True is returned only
      then, and the notification is sent exactly when the worker returns. */
  lemma ConcluidoOnlyOnZero(rc: Option<int>, falha: nat -> bool)
    ensures var x := Executar(rc, falha);
      (Concluido in x.writes ==> rc == Some(0))
      && (x.fim == Returned(true) <==> rc == Some(0) && !falha(0) && !falha(1))
      && (x.notified <==> x.fim.Returned?)
      && (x.writes != [] ==> x.writes[0] == EmProcesso || x.writes == [Erro])
  {
  }

  // ------------------------------------------------------------ the callback

  /** notificar_conclusao(cnpj, status, progresso): the JSON it posts. */
  function Notificacao(cnpj: string, status: string, progresso: string): map<string, string>
  {
    map["cnpj" := cnpj, "status" := "concluido", "progresso" := "100"]
  }

  /** The notification ignores the status and progress it is given. */
  lemma NotificacaoIgnoresArgs(cnpj: string, s1: string, p1: string, s2: string, p2: string)
    ensures Notificacao(cnpj, s1, p1) == Notificacao(cnpj, s2, p2)
    ensures Notificacao(cnpj, s1, p1)["status"] == "concluido"
  {
  }

  /** The update encerramento_concluido makes. */
  datatype Update = Update(cnpj: string, status: string, progresso: string)

  /** What encerramento_concluido did: its response and the update that committed. */
  datatype Registro = Registro(resp: Response, update: Option<Update>)

  /** POST /encerramento_concluido: a null or empty body, or one without cnpj, is
      refused; status and progresso default to concluido and 100; a status update
      that raises gives a 500. */
  function Recebido(dados: Json, falha: bool): Registro
  {
    if dados.None? || "cnpj" !in dados.value then Registro(Response(400, Failed("Dados inválidos")), None)
    else
      var d := dados.value;
      var status := if "status" in d then d["status"] else "concluido";
      var progresso := if "progresso" in d then d["progresso"] else "100";
      if falha then Registro(Response(500, Failed("Erro ao registrar encerramento")), None)
      else Registro(Response(200, Registered), Some(Update(d["cnpj"], status, progresso)))
  }

  method EncerramentoConcluido(db: Database, dados: Json, falha: bool) returns (r: Registro)
    modifies db
    ensures r == Recebido(dados, falha)
    ensures db.empresas == if r.update.Some? then UpdateStatus(old(db.empresas), r.update.value.cnpj,
                                                               r.update.value.status, r.update.value.progresso)
                           else old(db.empresas)
  {
    if dados.None? || "cnpj" !in dados.value {
      return Registro(Response(400, Failed("Dados inválidos")), None);
    }
    var d := dados.value;
    var cnpj := d["cnpj"];
    var status := if "status" in d then d["status"] else "concluido";
    var progresso := if "progresso" in d then d["progresso"] else "100";
    var err := Atualizar(db, cnpj, status, progresso, falha);
    if err.Some? {
      return Registro(Response(500, Failed("Erro ao registrar encerramento")), None);
    }
    return Registro(Response(200, Registered), Some(Update(cnpj, status, progresso)));
  }

  /** The callback answers 200 exactly when the body names a cnpj and the update
      commits; absent fields take their defaults, given ones are written as given. */
  lemma RecebidoIff(dados: Json, falha: bool)
    ensures var r := Recebido(dados, falha);
      (r.resp.code == 200 <==> dados.Some? && "cnpj" in dados.value && !falha)
      && (r.update.Some? <==> r.resp.code == 200)
      && (r.resp.code == 200 ==>
            var d := dados.value;
            r.update.value.cnpj == d["cnpj"]
            && r.update.value.status == (if "status" in d then d["status"] else "concluido")
            && r.update.value.progresso == (if "progresso" in d then d["progresso"] else "100"))
      && (dados == Some(map[]) ==> r.resp.code == 400)
  {
  }

  /** A failed bot run is recorded as erro/0, but the notification it sends is
      concluido/100: once the callback commits, the row reads concluido/100. */
  lemma ErroOverwritten(t: Table, job: Job, rc: Option<int>, falha: nat -> bool)
    requires job.cnpj in t && rc != Some(0) && forall k :: !falha(k)
    ensures var x := Executar(rc, falha);
      var afterRun := ApplyWrites(t, job.cnpj, x.writes);
      var reg := Recebido(Some(Notificacao(job.cnpj, "erro", "0")), false);
      job.cnpj in afterRun && afterRun[job.cnpj].status == "erro"
      && reg.update == Some(Update(job.cnpj, "concluido", "100"))
      && UpdateStatus(afterRun, job.cnpj, "concluido", "100")[job.cnpj].status == "concluido"
  {
    Transitions(rc, falha);
    var x := Executar(rc, falha);
    ApplyWritesEffect(t, job.cnpj, x.writes);
  }
}
