/** criar_db.py: creates the empresas table if needed and saves a batch of roster
    tuples with INSERT OR REPLACE; a sqlite error is printed and swallowed. */
module CriarDb {
  import opened Runtime
  import opened Empresas

  /** save_to_database(dados): the batch is committed whole or, when sqlite raises
      on some tuple, rolled back by the connection's context manager; either way
      the call returns normally. */
  method SaveToDatabase(db: Database, dados: seq<Linha>, fails: nat -> bool)
    modifies db
    ensures (exists i :: 0 <= i < |dados| && fails(i)) ==> db.empresas == old(db.empresas)
    ensures (forall i :: 0 <= i < |dados| ==> !fails(i)) ==> db.empresas == UpsertAll(old(db.empresas), dados)
  {
    var err := db.SaveToDatabase(dados, fails);
    // except sqlite3.Error: the message is printed and nothing is raised
  }

  /** The two sample tuples the script saves when run directly. */
  const Amostra: seq<Linha> := [
    Linha("1234567890", "35496100000135", "Exatta Contabilidade Digital LTDA ", "Sim", "sim"),
    Linha("2345678901", "11.111.111/0001-92", "Outra Empresa", "Sim", "Não")
  ]

  /** The store does not normalise cnpjs: the punctuated sample is kept as written,
      next to the digits-only one, both with the default status. */
  lemma AmostraVerbatim(t: Table)
    ensures var r := UpsertAll(t, Amostra);
      "11.111.111/0001-92" in r && r["11.111.111/0001-92"].nome == "Outra Empresa"
      && "35496100000135" in r && r["35496100000135"].status == DefaultStatus
      && forall k :: k in t && k != "11.111.111/0001-92" && k != "35496100000135" ==> k in r && r[k] == t[k]
  {
    assert Amostra[1..][1..] == [];
  }

  /** The script's entry point: the sample batch saved into the database. */
  method Exemplo(db: Database, fails: nat -> bool)
    modifies db
    ensures (!fails(0) && !fails(1)) ==> db.empresas == UpsertAll(old(db.empresas), Amostra)
    ensures (fails(0) || fails(1)) ==> db.empresas == old(db.empresas)
  {
    SaveToDatabase(db, Amostra, fails);
  }
}
