/** app.py: the dashboard. Its index builds a query with one "AND column = ?"
    clause per filter given in the URL, lists the companies that match, and lists
    the distinct names for the filter menu; its /encerrar only echoes the request. */
module Dashboard {
  import opened Runtime

  /** A row of app.py's table as index selects it: cnpj, nome, omisso, debito. */
  datatype Row = Row(cnpj: string, nome: string, omisso: string, debito: string)

  /** The columns a filter can constrain. */
  datatype Column = Nome | Omisso | Debito

  function Field(r: Row, c: Column): string
  {
    match c
    case Nome => r.nome
    case Omisso => r.omisso
    case Debito => r.debito
  }

  function Clause(c: Column): string
  {
    match c
    case Nome => " AND nome = ?"
    case Omisso => " AND omisso = ?"
    case Debito => " AND debito = ?"
  }

  const Base := "SELECT cnpj, nome, omisso, debito FROM empresas WHERE 1=1"

  /** The clauses appended to the base query, in order. */
  function Render(cols: seq<Column>): string
  {
    if cols == [] then "" else Render(cols[..|cols| - 1]) + Clause(cols[|cols| - 1])
  }

  /** What the database does with the query: a row is returned when each
      placeholder's column equals the parameter bound to it, in order. */
  predicate Satisfies(r: Row, cols: seq<Column>, params: seq<string>)
    requires |cols| == |params|
  {
    cols == []
    || (Satisfies(r, cols[..|cols| - 1], params[..|params| - 1]) && Field(r, cols[|cols| - 1]) == params[|params| - 1])
  }

  function Select(rows: seq<Row>, cols: seq<Column>, params: seq<string>): seq<Row>
    requires |cols| == |params|
  {
    if rows == [] then []
    else (if Satisfies(rows[0], cols, params) then [rows[0]] else []) + Select(rows[1..], cols, params)
  }

  /** `if empresa:`: a filter is applied when present and not empty. */
  predicate Given(f: Option<string>) { f.Some? && f.value != "" }

  /** The filter the page means: every given filter equals its column. */
  predicate Matches(r: Row, empresa: Option<string>, omisso: Option<string>, debito: Option<string>)
  {
    (Given(empresa) ==> r.nome == empresa.value)
    && (Given(omisso) ==> r.omisso == omisso.value)
    && (Given(debito) ==> r.debito == debito.value)
  }

  /** The rows that match, in table order. */
  function Filtered(rows: seq<Row>, empresa: Option<string>, omisso: Option<string>, debito: Option<string>): seq<Row>
  {
    if rows == [] then []
    else (if Matches(rows[0], empresa, omisso, debito) then [rows[0]] else [])
         + Filtered(rows[1..], empresa, omisso, debito)
  }

  /** The placeholder a filter adds, if it is given, and the value bound to it. */
  function Opt(c: Column, f: Option<string>): seq<Column> { if Given(f) then [c] else [] }
  function Val(f: Option<string>): seq<string> { if Given(f) then [f.value] else [] }

  /** The placeholders index adds, in its order, and their parameters. */
  function Cols(empresa: Option<string>, omisso: Option<string>, debito: Option<string>): seq<Column>
  {
    Opt(Nome, empresa) + Opt(Omisso, omisso) + Opt(Debito, debito)
  }

  function Params(empresa: Option<string>, omisso: Option<string>, debito: Option<string>): seq<string>
  {
    Val(empresa) + Val(omisso) + Val(debito)
  }

  /** A filter's placeholder narrows the rows by its equality, and only when given. */
  lemma SatisfiesStep(r: Row, cols: seq<Column>, params: seq<string>, c: Column, f: Option<string>)
    requires |cols| == |params|
    ensures |cols + Opt(c, f)| == |params + Val(f)|
    ensures Satisfies(r, cols + Opt(c, f), params + Val(f)) <==> Satisfies(r, cols, params) && (Given(f) ==> Field(r, c) == f.value)
  {
    if Given(f) {
      assert (cols + [c])[..|cols|] == cols && (params + [f.value])[..|params|] == params;
    } else {
      assert cols + [] == cols && params + [] == params;
    }
  }

  /** The query index builds selects exactly the rows matching every given filter. */
  lemma RowMatches(r: Row, empresa: Option<string>, omisso: Option<string>, debito: Option<string>)
    ensures |Cols(empresa, omisso, debito)| == |Params(empresa, omisso, debito)|
    ensures Satisfies(r, Cols(empresa, omisso, debito), Params(empresa, omisso, debito)) <==> Matches(r, empresa, omisso, debito)
  {
    var e: seq<Column> := [];
    var p: seq<string> := [];
    assert Satisfies(r, e, p);
    SatisfiesStep(r, e, p, Nome, empresa);
    assert e + Opt(Nome, empresa) == Opt(Nome, empresa) && p + Val(empresa) == Val(empresa);
    SatisfiesStep(r, Opt(Nome, empresa), Val(empresa), Omisso, omisso);
    SatisfiesStep(r, Opt(Nome, empresa) + Opt(Omisso, omisso), Val(empresa) + Val(omisso), Debito, debito);
  }

  /** SELECT with the built query lists exactly Filtered, in table order. */
  lemma {:induction false} SelectFiltered(rows: seq<Row>, empresa: Option<string>, omisso: Option<string>, debito: Option<string>)
    ensures |Cols(empresa, omisso, debito)| == |Params(empresa, omisso, debito)|
    ensures Select(rows, Cols(empresa, omisso, debito), Params(empresa, omisso, debito)) == Filtered(rows, empresa, omisso, debito)
    decreases |rows|
  {
    RowMatches(Row("", "", "", ""), empresa, omisso, debito);
    if rows != [] {
      RowMatches(rows[0], empresa, omisso, debito);
      SelectFiltered(rows[1..], empresa, omisso, debito);
    }
  }

  /** A row is listed exactly when it is in the table and matches every given
      filter; the filters combine by AND. */
  lemma {:induction false} FilteredContents(rows: seq<Row>, empresa: Option<string>, omisso: Option<string>, debito: Option<string>)
    ensures forall r :: r in Filtered(rows, empresa, omisso, debito) <==> r in rows && Matches(r, empresa, omisso, debito)
    decreases |rows|
  {
    if rows != [] {
      FilteredContents(rows[1..], empresa, omisso, debito);
      assert forall r :: r in rows <==> r == rows[0] || r in rows[1..];
    }
  }

  /** With no filter, or only empty ones, every row is listed, in order. */
  lemma {:induction false} NoFilterAll(rows: seq<Row>, empresa: Option<string>, omisso: Option<string>, debito: Option<string>)
    requires !Given(empresa) && !Given(omisso) && !Given(debito)
    ensures Filtered(rows, empresa, omisso, debito) == rows
    decreases |rows|
  {
    if rows != [] {
      NoFilterAll(rows[1..], empresa, omisso, debito);
      assert [rows[0]] + rows[1..] == rows;
    }
  }

  lemma RenderSnoc(cols: seq<Column>, c: Column)
    ensures Render(cols + [c]) == Render(cols) + Clause(c)
  {
    assert (cols + [c])[..|cols|] == cols;
  }

  lemma Assoc(a: string, b: string, c: string)
    ensures a + b + c == a + (b + c)
  {
  }

  /** One step of index: `if value: query += clause; params.append(value)`. */
  method AddFilter(query: string, cols: seq<Column>, params: seq<string>, c: Column, f: Option<string>)
    returns (query': string, cols': seq<Column>, params': seq<string>)
    requires query == Base + Render(cols)
    ensures query' == Base + Render(cols')
    ensures cols' == cols + Opt(c, f) && params' == params + Val(f)
  {
    if Given(f) {
      RenderSnoc(cols, c);
      Assoc(Base, Render(cols), Clause(c));
      query' := query + Clause(c);
      cols' := cols + [c];
      params' := params + [f.value];
    } else {
      query', cols', params' := query, cols, params;
      assert cols + [] == cols && params + [] == params;
    }
  }

  /** index: the query and its parameters built clause by clause, in the order
      nome, omisso, debito, each given filter adding its placeholder and its
      value; the listing is the rows matching every given filter. */
  method Index(rows: seq<Row>, empresa: Option<string>, omisso: Option<string>, debito: Option<string>)
    returns (query: string, cols: seq<Column>, params: seq<string>, empresas: seq<Row>)
    ensures cols == Cols(empresa, omisso, debito) && params == Params(empresa, omisso, debito)
    ensures query == Base + Render(cols)
    ensures empresas == Filtered(rows, empresa, omisso, debito)
  {
    query := Base;
    cols := [];
    params := [];
    query, cols, params := AddFilter(query, cols, params, Nome, empresa);
    assert cols == Opt(Nome, empresa) && params == Val(empresa);
    query, cols, params := AddFilter(query, cols, params, Omisso, omisso);
    query, cols, params := AddFilter(query, cols, params, Debito, debito);
    SelectFiltered(rows, empresa, omisso, debito);
    empresas := Select(rows, cols, params);
  }

  // ------------------------------------------------------------ the name list

  /** SELECT DISTINCT nome: each name once, at its first occurrence. */
  function Distinct(names: seq<string>): (r: seq<string>)
  {
    if names == [] then []
    else
      var rest := Distinct(names[..|names| - 1]);
      if names[|names| - 1] in rest then rest else rest + [names[|names| - 1]]
  }

  /** The list holds every name of the table and nothing else, each exactly once. */
  lemma {:induction false} DistinctOnce(names: seq<string>)
    ensures var r := Distinct(names);
      (forall x :: x in r <==> x in names)
      && forall i, j :: 0 <= i < j < |r| ==> r[i] != r[j]
    decreases |names|
  {
    if names != [] {
      var init := names[..|names| - 1];
      DistinctOnce(init);
      assert forall x :: x in names <==> x in init || x == names[|names| - 1];
    }
  }

  function Nomes(rows: seq<Row>): seq<string>
  {
    seq(|rows|, i requires 0 <= i < |rows| => rows[i].nome)
  }

  /** lista_empresas: the distinct names of every row, whatever the filters. */
  lemma ListaEmpresas(rows: seq<Row>)
    ensures var l := Distinct(Nomes(rows));
      (forall x :: x in l <==> exists i :: 0 <= i < |rows| && rows[i].nome == x)
      && forall i, j :: 0 <= i < j < |l| ==> l[i] != l[j]
  {
    DistinctOnce(Nomes(rows));
    var n := Nomes(rows);
    assert forall x :: x in n <==> exists i :: 0 <= i < |rows| && rows[i].nome == x by {
      forall x ensures x in n <==> exists i :: 0 <= i < |rows| && rows[i].nome == x {
        if x in n {
          var i :| 0 <= i < |n| && n[i] == x;
          assert rows[i].nome == x;
        }
        if exists i :: 0 <= i < |rows| && rows[i].nome == x {
          var i :| 0 <= i < |rows| && rows[i].nome == x;
          assert n[i] == x;
        }
      }
    }
  }

  // ------------------------------------------------------------ /encerrar

  /** str() of a data.get(...) result: an absent field prints as None. */
  function Show(v: Option<string>): string
  {
    if v.None? then "None" else v.value
  }

  function Get(d: map<string, string>, k: string): Option<string>
  {
    if k in d then Some(d[k]) else None
  }

  /** The echoed message: no validation and no side effect. */
  function Eco(d: map<string, string>): string
  {
    "Movimento encerrado para o CNPJ " + Show(Get(d, "cnpj")) + " de " + Show(Get(d, "periodo_inicial"))
      + " até " + Show(Get(d, "periodo_final")) + "."
  }

  /** POST /encerrar: request.get_json() gives None for a null body, and data.get
      then raises AttributeError, which Flask answers with a 500; any object body
      is echoed. */
  function Encerrar(dados: Option<map<string, string>>): Result<string>
  {
    if dados.None? then Err(AttributeError) else Ok(Eco(dados.value))
  }

  /** The cnpj and both periods are echoed as sent, whatever they are, an absent
      one as None, each at its place in the message; a null body raises. */
  lemma EcoVerbatim(dados: Option<map<string, string>>)
    ensures dados.None? ==> Encerrar(dados) == Err(AttributeError)
    ensures dados.Some? ==> (Encerrar(dados).Ok? &&
      var d := dados.value;
      var prefix := "Movimento encerrado para o CNPJ ";
      var c := Show(Get(d, "cnpj"));
      var pi := Show(Get(d, "periodo_inicial"));
      var pf := Show(Get(d, "periodo_final"));
      var m := Encerrar(dados).value;
      var a := |prefix| + |c| + |" de "|;
      var b := a + |pi| + |" até "|;
      |m| == b + |pf| + 1 && m[..|prefix|] == prefix
      && m[|prefix|..|prefix| + |c|] == c && m[a..a + |pi|] == pi && m[b..b + |pf|] == pf
      && ("cnpj" in d ==> c == d["cnpj"]) && ("cnpj" !in d ==> c == "None")
      && ("periodo_inicial" in d ==> pi == d["periodo_inicial"]) && ("periodo_inicial" !in d ==> pi == "None")
      && ("periodo_final" in d ==> pf == d["periodo_final"]) && ("periodo_final" !in d ==> pf == "None"))
  {
    if dados.Some? {
      var d := dados.value;
      Places("Movimento encerrado para o CNPJ ", Show(Get(d, "cnpj")), " de ", Show(Get(d, "periodo_inicial")),
             " até ", Show(Get(d, "periodo_final")), ".");
    }
  }

  /** Where each part of a seven-part concatenation sits. */
  lemma Places(p: string, c: string, x: string, pi: string, y: string, pf: string, z: string)
    ensures var m := p + c + x + pi + y + pf + z;
      var a := |p| + |c| + |x|;
      var b := a + |pi| + |y|;
      |m| == b + |pf| + |z| && m[..|p|] == p && m[|p|..|p| + |c|] == c
      && m[a..a + |pi|] == pi && m[b..b + |pf|] == pf
  {
    var m := p + c + x + pi + y + pf + z;
    assert m == (p + c + x) + pi + (y + pf + z);
    assert m == (p + c + x + pi + y) + pf + z;
    Middle(p, c, x + pi + y + pf + z);
  }

  lemma Middle(p: string, c: string, t: string)
    ensures (p + c + t)[..|p|] == p && (p + c + t)[|p|..|p| + |c|] == c
  {
  }
}
