/** The sqlite table empresas in empresas.db, keyed by its UNIQUE cnpj column:
    INSERT OR REPLACE of the roster tuples, and UPDATE ... WHERE cnpj = ? of the
    status columns. */
module Empresas {
  import opened Runtime

  /** A stored row: the five roster columns and the two status columns. */
  datatype Empresa = Empresa(im: string, cnpj: string, nome: string, omisso: string, debito: string,
                             status: string, progresso: string)

  /** One roster tuple (im, cnpj, nome, omisso, debito), as the bots extract it. */
  datatype Linha = Linha(im: string, cnpj: string, nome: string, omisso: string, debito: string)

  type Table = map<string, Empresa>

  /** The column defaults: status TEXT DEFAULT 'pendente', progresso TEXT DEFAULT '0'. */
  const DefaultStatus := "pendente"
  const DefaultProgresso := "0"

  /** Every row is stored under its own cnpj. */
  predicate Keyed(t: Table) { forall k :: k in t ==> t[k].cnpj == k }

  /** The row REPLACE writes: the five given columns, the status columns at their defaults. */
  function Inserted(l: Linha): (e: Empresa)
    ensures e.cnpj == l.cnpj && e.status == DefaultStatus && e.progresso == DefaultProgresso
  {
    Empresa(l.im, l.cnpj, l.nome, l.omisso, l.debito, DefaultStatus, DefaultProgresso)
  }

  /** INSERT OR REPLACE of one tuple: a row with the same cnpj is deleted, the tuple inserted. */
  function Upsert(t: Table, l: Linha): Table
  {
    t[l.cnpj := Inserted(l)]
  }

  /** executemany of INSERT OR REPLACE: the tuples applied one after another. */
  function UpsertAll(t: Table, dados: seq<Linha>): Table
    decreases |dados|
  {
    if dados == [] then t else UpsertAll(Upsert(t, dados[0]), dados[1..])
  }

  /** The cnpjs a batch mentions. */
  function Cnpjs(dados: seq<Linha>): set<string>
  {
    set i | 0 <= i < |dados| :: dados[i].cnpj
  }

  /** The last tuple of a batch with the given cnpj. */
  function LastWith(dados: seq<Linha>, k: string): (l: Linha)
    requires k in Cnpjs(dados)
    ensures l.cnpj == k && l in dados
    decreases |dados|
  {
    var last := dados[|dados| - 1];
    if last.cnpj == k then last
    else
      assert k in Cnpjs(dados[..|dados| - 1]) by {
        var i :| 0 <= i < |dados| && dados[i].cnpj == k;
        assert dados[..|dados| - 1][i] == dados[i];
      }
      LastWith(dados[..|dados| - 1], k)
  }

  /** UPDATE empresas SET status = ?, progresso = ? WHERE cnpj = ?: only a row that
      exists changes, and only in its two status columns. */
  function UpdateStatus(t: Table, cnpj: string, status: string, progresso: string): Table
  {
    if cnpj in t then t[cnpj := t[cnpj].(status := status, progresso := progresso)] else t
  }

  /** One (status, progresso) pair written for a cnpj. */
  datatype StatusWrite = StatusWrite(status: string, progresso: string)

  /** The writes of a run applied in order to the same cnpj. */
  function ApplyWrites(t: Table, cnpj: string, ws: seq<StatusWrite>): Table
  {
    if ws == [] then t
    else
      var w := ws[|ws| - 1];
      UpdateStatus(ApplyWrites(t, cnpj, ws[..|ws| - 1]), cnpj, w.status, w.progresso)
  }

  // ------------------------------------------------------------ lemmas

  lemma UpsertAllSnoc(t: Table, dados: seq<Linha>, l: Linha)
    ensures UpsertAll(t, dados + [l]) == Upsert(UpsertAll(t, dados), l)
    decreases |dados|
  {
    if dados == [] {
      assert dados + [l] == [l];
    } else {
      assert (dados + [l])[1..] == dados[1..] + [l];
      UpsertAllSnoc(Upsert(t, dados[0]), dados[1..], l);
    }
  }

  lemma CnpjsSnoc(init: seq<Linha>, last: Linha)
    ensures Cnpjs(init + [last]) == Cnpjs(init) + {last.cnpj}
  {
    var dados := init + [last];
    forall k | k in Cnpjs(dados) ensures k in Cnpjs(init) + {last.cnpj} {
      var i :| 0 <= i < |dados| && dados[i].cnpj == k;
      if i < |init| { assert init[i] == dados[i]; }
    }
    forall k | k in Cnpjs(init) ensures k in Cnpjs(dados) {
      var i :| 0 <= i < |init| && init[i].cnpj == k;
      assert dados[i] == init[i];
    }
    assert dados[|init|] == last;
  }

  /** One cnpj after a batch: if the batch mentions it, the row is the last tuple
      given for it with the status columns reset; otherwise the row is as it was. */
  lemma {:induction false} UpsertAllAt(t: Table, dados: seq<Linha>, k: string)
    ensures var r := UpsertAll(t, dados);
      (k in r <==> k in t || k in Cnpjs(dados))
      && (k in Cnpjs(dados) ==> r[k] == Inserted(LastWith(dados, k)))
      && (k in t && k !in Cnpjs(dados) ==> r[k] == t[k])
    decreases |dados|
  {
    if dados != [] {
      var init, last := dados[..|dados| - 1], dados[|dados| - 1];
      assert dados == init + [last];
      UpsertAllSnoc(t, init, last);
      UpsertAllAt(t, init, k);
      CnpjsSnoc(init, last);
    }
  }

  /** The whole table after a batch, as UpsertAllAt states it for each cnpj. */
  lemma UpsertAllContents(t: Table, dados: seq<Linha>)
    ensures var r := UpsertAll(t, dados);
      r.Keys == t.Keys + Cnpjs(dados)
      && (forall k :: k in Cnpjs(dados) ==> r[k] == Inserted(LastWith(dados, k)))
      && (forall k :: k in t && k !in Cnpjs(dados) ==> r[k] == t[k])
  {
    forall k ensures var r := UpsertAll(t, dados);
      (k in r <==> k in t || k in Cnpjs(dados))
      && (k in Cnpjs(dados) ==> r[k] == Inserted(LastWith(dados, k)))
      && (k in t && k !in Cnpjs(dados) ==> r[k] == t[k])
    {
      UpsertAllAt(t, dados, k);
    }
  }

  /** Saving keeps every row under its own cnpj. */
  lemma {:induction false} UpsertAllKeyed(t: Table, dados: seq<Linha>)
    requires Keyed(t)
    ensures Keyed(UpsertAll(t, dados))
    decreases |dados|
  {
    if dados != [] {
      UpsertAllKeyed(Upsert(t, dados[0]), dados[1..]);
    }
  }

  /** Saving the same batch twice leaves the table as saving it once. */
  lemma {:induction false} UpsertAllIdempotent(t: Table, dados: seq<Linha>)
    ensures UpsertAll(UpsertAll(t, dados), dados) == UpsertAll(t, dados)
  {
    var once := UpsertAll(t, dados);
    var twice := UpsertAll(once, dados);
    UpsertAllContents(t, dados);
    UpsertAllContents(once, dados);
  }

  /** The update changes the matching row's status columns and nothing else. */
  lemma UpdateStatusFrame(t: Table, cnpj: string, status: string, progresso: string)
    ensures var r := UpdateStatus(t, cnpj, status, progresso);
      r.Keys == t.Keys
      && (forall k :: k in t && k != cnpj ==> r[k] == t[k])
      && (cnpj in t ==>
            r[cnpj].status == status && r[cnpj].progresso == progresso
            && r[cnpj].(status := t[cnpj].status, progresso := t[cnpj].progresso) == t[cnpj])
  {
  }

  /** The update keeps every row under its own cnpj. */
  lemma UpdateStatusKeyed(t: Table, cnpj: string, status: string, progresso: string)
    requires Keyed(t)
    ensures Keyed(UpdateStatus(t, cnpj, status, progresso))
  {
  }

  /** A run of status writes leaves the row holding the last pair written, and
      every other row, and the set of rows, as they were. */
  lemma {:induction false} ApplyWritesEffect(t: Table, cnpj: string, ws: seq<StatusWrite>)
    ensures var r := ApplyWrites(t, cnpj, ws);
      r.Keys == t.Keys
      && (forall k :: k in t && k != cnpj ==> r[k] == t[k])
      && (cnpj in t && ws != [] ==>
            r[cnpj] == t[cnpj].(status := ws[|ws| - 1].status, progresso := ws[|ws| - 1].progresso))
      && (ws == [] ==> r == t)
  {
    if ws != [] {
      ApplyWritesEffect(t, cnpj, ws[..|ws| - 1]);
    }
  }

  lemma ApplyWritesSnoc(t: Table, cnpj: string, ws: seq<StatusWrite>, w: StatusWrite)
    ensures ApplyWrites(t, cnpj, ws + [w]) == UpdateStatus(ApplyWrites(t, cnpj, ws), cnpj, w.status, w.progresso)
  {
    assert (ws + [w])[..|ws|] == ws;
  }

  // ------------------------------------------------------------ the database

  /** empresas.db: the table the bots, the server and the dashboard share. */
  class Database {
    var empresas: Table

    constructor(initial: Table)
      ensures empresas == initial
    {
      empresas := initial;
    }

    /** save_to_database(dados): one transaction of INSERT OR REPLACE, row by row;
        fails(i) says that sqlite raises on the i-th row, and then nothing is
        committed. The error is returned; each caller decides whether to swallow it. */
    method SaveToDatabase(dados: seq<Linha>, fails: nat -> bool) returns (err: Option<Exc>)
      modifies this
      ensures (exists i :: 0 <= i < |dados| && fails(i))
        ==> err == Some(DatabaseError) && empresas == old(empresas)
      ensures (forall i :: 0 <= i < |dados| ==> !fails(i))
        ==> err == None && empresas == UpsertAll(old(empresas), dados)
    {
      var pendente := empresas;
      for i := 0 to |dados|
        invariant empresas == old(empresas)
        invariant forall j :: 0 <= j < i ==> !fails(j)
        invariant pendente == UpsertAll(empresas, dados[..i])
      {
        if fails(i) {
          return Some(DatabaseError);
        }
        assert dados[..i + 1] == dados[..i] + [dados[i]];
        UpsertAllSnoc(empresas, dados[..i], dados[i]);
        pendente := Upsert(pendente, dados[i]);
      }
      assert dados[..|dados|] == dados;
      empresas := pendente;
      return None;
    }

    /** atualizar_status_db(cnpj, status, progresso). */
    method AtualizarStatus(cnpj: string, status: string, progresso: string)
      modifies this
      ensures empresas == UpdateStatus(old(empresas), cnpj, status, progresso)
    {
      empresas := UpdateStatus(empresas, cnpj, status, progresso);
    }
  }
}
