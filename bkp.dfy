/** bkp-sever.py: the earlier coordinator. Its validators are server.py's; its
    /encerrar needs no bot_path and always runs bots/bot.py. Two of its calls to
    atualizar_status pass an extra leading None: the decorator already supplies
    the connection, so the arguments shift by one. */
module BkpServer {
  import opened Runtime
  import opened Text
  import opened Empresas
  import opened Server

  // ------------------------------------------------------------ the shifted calls

  /** The positional arguments a call site passes to atualizar_status after the
      connection the decorator adds: the first may be None, the rest are strings. */
  datatype Call = Call(first: Option<string>, rest: seq<string>)

  /** The parameters (cnpj, status, progresso='0') bound to those arguments. */
  datatype Bound = Bound(cnpj: Option<string>, status: string, progresso: string)

  /** Python's binding of the arguments to atualizar_status(conn, cnpj, status,
      progresso='0'): two or three are accepted (the third defaulting to '0'),
      more raise a TypeError before the function body runs. */
  function Bind(c: Call): Result<Bound>
  {
    if |c.rest| == 0 then Err(TypeError)
    else if |c.rest| == 1 then Ok(Bound(c.first, c.rest[0], "0"))
    else if |c.rest| == 2 then Ok(Bound(c.first, c.rest[0], c.rest[1]))
    else Err(TypeError)
  }

  /** UPDATE ... WHERE cnpj = ?: a None cnpj is NULL, and cnpj = NULL holds for no row. */
  function UpdateWhere(t: Table, b: Bound): Table
  {
    if b.cnpj.None? then t else UpdateStatus(t, b.cnpj.value, b.status, b.progresso)
  }

  /** One call through transacao_db: sqlite3.connect runs first, and a database
      that cannot be opened raises before the arguments are bound (semConexao);
      then the binding error escapes with nothing written; otherwise falha says
      that the update raises (rolled back, re-raised). */
  method Chamar(db: Database, c: Call, semConexao: bool, falha: bool) returns (err: Option<Exc>)
    modifies db
    ensures semConexao ==> err == Some(DatabaseError) && db.empresas == old(db.empresas)
    ensures !semConexao && Bind(c).Err? ==> err == Some(Bind(c).error) && db.empresas == old(db.empresas)
    ensures !semConexao && Bind(c).Ok? && falha ==> err == Some(DatabaseError) && db.empresas == old(db.empresas)
    ensures !semConexao && Bind(c).Ok? && !falha ==> err == None && db.empresas == UpdateWhere(old(db.empresas), Bind(c).value)
  {
    if semConexao {
      return Some(DatabaseError);
    }
    var b := Bind(c);
    if b.Err? {
      return Some(b.error);
    }
    if falha {
      return Some(DatabaseError);
    }
    db.empresas := UpdateWhere(db.empresas, b.value);
    return None;
  }

  /** atualizar_status(None, cnpj, 'em_processo'), as /encerrar calls it. */
  function Inicial(cnpj: string): Call { Call(None, [cnpj, "em_processo"]) }

  /** atualizar_status(None, cnpj, 'erro', '0'), as both error paths call it. */
  function ErroCall(cnpj: string): Call { Call(None, [cnpj, "erro", "0"]) }

  /** The initial update binds cnpj to None, status to the cnpj and progresso to
      'em_processo', and so changes no row. */
  lemma InicialChangesNothing(t: Table, cnpj: string)
    ensures Bind(Inicial(cnpj)) == Ok(Bound(None, cnpj, "em_processo"))
    ensures UpdateWhere(t, Bind(Inicial(cnpj)).value) == t
  {
  }

  /** The error update has one argument too many and raises a TypeError. */
  lemma ErroCallRaises(cnpj: string)
    ensures Bind(ErroCall(cnpj)) == Err(TypeError)
  {
  }

  /** The well-formed calls bind as written. */
  lemma WellFormedCalls(cnpj: string, status: string, progresso: string)
    ensures Bind(Call(Some(cnpj), [status])) == Ok(Bound(Some(cnpj), status, "0"))
    ensures Bind(Call(Some(cnpj), [status, progresso])) == Ok(Bound(Some(cnpj), status, progresso))
  {
  }

  // ------------------------------------------------------------ /encerrar

  /** The fields this /encerrar requires: no bot_path. */
  predicate HasFields(d: map<string, string>)
  {
    "cnpj" in d && "periodo_inicial" in d && "periodo_final" in d
  }

  /** The arguments of this executar_bot. */
  datatype Tarefa = Tarefa(cnpj: string, periodoInicial: string, periodoFinal: string)

  datatype Pedido = Pedido(resp: Response, job: Option<Tarefa>)

  /** POST /encerrar, with falha whether the initial update raises. The call binds,
      so a database that cannot be opened and an update that fails end alike:
      falha stands for both. */
  function Iniciar(dados: Json, falha: bool): Pedido
  {
    if dados.None? then Pedido(Response(500, Crashed(TypeError)), None)
    else
      var d := dados.value;
      if !HasFields(d) then Pedido(Ausentes, None)
      else
        var cnpj := KeepDigits(d["cnpj"]);
        var pi := Remove(d["periodo_inicial"], '/');
        var pf := Remove(d["periodo_final"], '/');
        if !ValidarCnpj(cnpj) then Pedido(CnpjInvalido, None)
        else if !(ValidarPeriodo(pi) && ValidarPeriodo(pf)) then Pedido(PeriodoInvalido, None)
        else if falha then Pedido(Response(500, Crashed(DatabaseError)), None)
        else Pedido(Response(202, Queued(cnpj)), Some(Tarefa(cnpj, pi, pf)))
  }

  /** iniciar_encerramento. The table never changes: the only update it makes is
      the shifted one. */
  method IniciarEncerramento(db: Database, dados: Json, falha: bool) returns (r: Pedido)
    modifies db
    ensures r == Iniciar(dados, falha)
    ensures db.empresas == old(db.empresas)
  {
    if dados.None? {
      return Pedido(Response(500, Crashed(TypeError)), None);
    }
    var d := dados.value;
    if !HasFields(d) {
      return Pedido(Ausentes, None);
    }
    var cnpj := KeepDigits(d["cnpj"]);
    var periodoInicial := Remove(d["periodo_inicial"], '/');
    var periodoFinal := Remove(d["periodo_final"], '/');
    if !ValidarCnpj(cnpj) {
      return Pedido(CnpjInvalido, None);
    }
    if !(ValidarPeriodo(periodoInicial) && ValidarPeriodo(periodoFinal)) {
      return Pedido(PeriodoInvalido, None);
    }
    var err := Chamar(db, Inicial(cnpj), false, falha);
    InicialChangesNothing(old(db.empresas), cnpj);
    if err.Some? {
      return Pedido(Response(500, Crashed(err.value)), None);
    }
    return Pedido(Response(202, Queued(cnpj)), Some(Tarefa(cnpj, periodoInicial, periodoFinal)));
  }

  /** Accepted exactly when the three fields are present, the normalised values
      validate and the (no-op) update does not raise; a bot_path is never asked for. */
  lemma AcceptedIff(dados: Json, falha: bool)
    ensures var r := Iniciar(dados, falha);
      (r.resp.code == 202 <==>
         dados.Some? && HasFields(dados.value)
         && |KeepDigits(dados.value["cnpj"])| == 14
         && ValidarPeriodo(Remove(dados.value["periodo_inicial"], '/'))
         && ValidarPeriodo(Remove(dados.value["periodo_final"], '/'))
         && !falha)
      && (r.job.Some? <==> r.resp.code == 202)
      && (dados.Some? && !HasFields(dados.value) ==> r.resp == Ausentes)
  {
    if dados.Some? && HasFields(dados.value) {
      NormalisedCnpjIff(dados.value["cnpj"]);
    }
  }

  // ------------------------------------------------------------ the worker

  /** The exception the shifted error call raises: sqlite3.connect fails first
      when the database cannot be opened, otherwise the binding fails. */
  function ErroCallError(semConexao: bool): (e: Exc)
    ensures e == DatabaseError || e == TypeError
  {
    if semConexao then DatabaseError else TypeError
  }

  /** executar_bot(cnpj, periodo_inicial, periodo_final): rc is bots/bot.py's return
      code (None when subprocess.run raised), and falha(k) says that the k-th call
      through transacao_db fails. For a well-formed call that is the connection or
      the update, which end alike; for the shifted error call it can only be the
      connection, since nothing after it runs. Call 0 is em_processo, call 1 the
      concluido or error call once the bot has run, and the except branch's error
      call comes next. */
  function Executar(rc: Option<int>, falha: nat -> bool): Execucao
  {
    if falha(0) then Execucao([], false, Escaped(ErroCallError(falha(1))))
    else if rc.None? then Execucao([EmProcesso], false, Escaped(ErroCallError(falha(1))))
    else if rc.value == 0 && !falha(1) then Execucao([EmProcesso, Concluido], false, Returned(true))
    else Execucao([EmProcesso], false, Escaped(ErroCallError(falha(2))))
  }

  method ExecutarBot(db: Database, job: Tarefa, rc: Option<int>, falha: nat -> bool) returns (x: Execucao)
    modifies db
    ensures x == Executar(rc, falha)
    ensures db.empresas == ApplyWrites(old(db.empresas), job.cnpj, x.writes)
  {
    var writes: seq<StatusWrite> := [];
    var proxima := 1;  // the index of the except branch's call
    var err := Chamar(db, Call(Some(job.cnpj), ["em_processo"]), false, falha(0));
    if err.None? {
      writes := [EmProcesso];
      assert writes[..0] == [];
      if rc.Some? {
        if rc.value == 0 {
          err := Chamar(db, Call(Some(job.cnpj), ["concluido", "100"]), false, falha(1));
          if err.None? {
            ApplyWritesSnoc(old(db.empresas), job.cnpj, writes, Concluido);
            writes := writes + [Concluido];
            return Execucao(writes, false, Returned(true));
          }
        } else {
          err := Chamar(db, ErroCall(job.cnpj), falha(1), false);
          ErroCallRaises(job.cnpj);
        }
        proxima := 2;
      }
    }
    // except Exception: the same shifted call raises again and escapes
    err := Chamar(db, ErroCall(job.cnpj), falha(proxima), false);
    ErroCallRaises(job.cnpj);
    return Execucao(writes, false, Escaped(err.value));
  }

  /** No run ever records erro: a return code other than 0, a subprocess that could
      not run, or an update that raises all end in the except branch's shifted
      call, whose exception escapes: the TypeError of its binding, or a
      DatabaseError when the database cannot be opened for it. The row is left as
      em_processo (or untouched). */
  lemma NoErroRecorded(rc: Option<int>, falha: nat -> bool)
    ensures var x := Executar(rc, falha);
      Erro !in x.writes
      && (x.fim == Returned(true) <==> rc == Some(0) && !falha(0) && !falha(1))
      && (x.fim != Returned(true) ==>
            var k := if falha(0) || rc.None? then 1 else 2;
            x.fim == Escaped(if falha(k) then DatabaseError else TypeError) && Concluido !in x.writes)
      && (rc != Some(0) && !falha(0) ==> x.writes == [EmProcesso])
  {
  }

  /** When empresas.db cannot be opened at all, nothing is written and the
      connection error escapes, whatever the bot did. */
  lemma SemBanco(rc: Option<int>)
    ensures Executar(rc, k => true) == Execucao([], false, Escaped(DatabaseError))
  {
  }

  /** Return code 0 with a table that does not fail stores concluido/100 through
      the well-formed call. */
  lemma ZeroConcluded(t: Table, cnpj: string, falha: nat -> bool)
    requires cnpj in t && !falha(0) && !falha(1)
    ensures var r := ApplyWrites(t, cnpj, Executar(Some(0), falha).writes);
      cnpj in r && r[cnpj].status == "concluido" && r[cnpj].progresso == "100"
  {
    ApplyWritesEffect(t, cnpj, Executar(Some(0), falha).writes);
  }
}
