/** Reading the client roster ("Carteira de Clientes") table: each tr.line row
    becomes an (im, cnpj, nome, omisso, debito) tuple of cleaned cell texts. */
module Roster {
  import opened Runtime
  import opened Text
  import opened Empresas

  /** What the page yields for one tr.line row: the inner texts of its td cells,
      or a row on which a locator call raised. */
  datatype RawRow = Cells(cells: seq<string>) | Unreadable

  /** cell.inner_text().strip().replace('\xa0', ''). */
  function Clean(s: string): string { Remove(Strip(s), Nbsp) }

  /** A cleaned cell has no no-break space and no whitespace at either end. */
  lemma CleanShape(s: string)
    ensures var c := Clean(s);
      (forall i :: 0 <= i < |c| ==> c[i] != Nbsp)
      && (c != [] ==> !IsSpace(c[0]) && !IsSpace(c[|c| - 1]))
  {
    var t := Strip(s);
    StripShape(s);
    if t != [] {
      // the ends of t are not spaces, so in particular not no-break spaces
      if |t| == 1 {
        assert t == [t[0]];
      } else {
        var first, mid, last := [t[0]], t[1..|t| - 1], [t[|t| - 1]];
        assert t == first + mid + last;
        RemoveAppend(first + mid, last, Nbsp);
        RemoveAppend(first, mid, Nbsp);
      }
    }
  }

  /** Cleaning a cleaned text changes nothing. */
  lemma CleanIdempotent(s: string)
    ensures Clean(Clean(s)) == Clean(s)
  {
    var c := Clean(s);
    CleanShape(s);
    StripNoEdgeSpace(c);
  }

  /** A row bot2.py accepts: readable, with at least five cells. */
  predicate Usable(r: RawRow) { r.Cells? && |r.cells| >= 5 }

  /** The tuple built from the first five cells of a usable row. */
  function ToLinha(r: RawRow): Linha
    requires Usable(r)
  {
    Linha(Clean(r.cells[0]), Clean(r.cells[1]), Clean(r.cells[2]), Clean(r.cells[3]), Clean(r.cells[4]))
  }

  /** bot2.py's extraction: usable rows in document order; the others logged and skipped. */
  function Lenient(rows: seq<RawRow>): seq<Linha>
    decreases |rows|
  {
    if rows == [] then []
    else
      var last := rows[|rows| - 1];
      Lenient(rows[..|rows| - 1]) + (if Usable(last) then [ToLinha(last)] else [])
  }

  /** copia_app.py's and botaca.py's extraction: cells 0..4 are read without a
      count check, so the first row that is unreadable or has fewer than five
      cells makes the locator time out, and the exception escapes. */
  function Strict(rows: seq<RawRow>): Result<seq<Linha>>
    decreases |rows|
  {
    if rows == [] then Ok([])
    else
      match Strict(rows[..|rows| - 1])
      case Err(e) => Err(e)
      case Ok(prefix) =>
        var last := rows[|rows| - 1];
        if Usable(last) then Ok(prefix + [ToLinha(last)]) else Err(BrowserError)
  }

  /** The loop over rows.count() in bot2.py's run. */
  method ExtractLenient(rows: seq<RawRow>) returns (dados: seq<Linha>)
    ensures dados == Lenient(rows)
  {
    dados := [];
    for i := 0 to |rows|
      invariant dados == Lenient(rows[..i])
    {
      assert rows[..i + 1][..i] == rows[..i];
      var row := rows[i];
      if row.Cells? && |row.cells| >= 5 {
        var im := Clean(row.cells[0]);
        var cnpjEmpresa := Clean(row.cells[1]);
        var nome := Clean(row.cells[2]);
        var omisso := Clean(row.cells[3]);
        var debito := Clean(row.cells[4]);
        dados := dados + [Linha(im, cnpjEmpresa, nome, omisso, debito)];
      }
      // otherwise: a warning or an error is logged and the row is skipped
    }
    assert rows[..|rows|] == rows;
  }

  /** The loop over rows.count() in copia_app.py's and botaca.py's run. */
  method ExtractStrict(rows: seq<RawRow>) returns (r: Result<seq<Linha>>)
    ensures r == Strict(rows)
  {
    var dados := [];
    for i := 0 to |rows|
      invariant Strict(rows[..i]) == Ok(dados)
    {
      assert rows[..i + 1][..i] == rows[..i];
      var row := rows[i];
      if !(row.Cells? && |row.cells| >= 5) {
        StrictErrPropagates(rows, i + 1);
        return Err(BrowserError);
      }
      dados := dados + [ToLinha(row)];
    }
    assert rows[..|rows|] == rows;
    return Ok(dados);
  }

  /** Once a prefix fails, so does every longer prefix. */
  lemma {:induction false} StrictErrPropagates(rows: seq<RawRow>, k: nat)
    requires k <= |rows| && Strict(rows[..k]).Err?
    ensures Strict(rows) == Err(BrowserError)
    decreases |rows| - k
  {
    if k == |rows| {
      assert rows[..k] == rows;
      StrictErrIsBrowser(rows);
    } else {
      assert rows[..k + 1][..k] == rows[..k];
      StrictErrPropagates(rows, k + 1);
    }
  }

  lemma {:induction false} StrictErrIsBrowser(rows: seq<RawRow>)
    ensures Strict(rows).Err? ==> Strict(rows) == Err(BrowserError)
    decreases |rows|
  {
    if rows != [] {
      StrictErrIsBrowser(rows[..|rows| - 1]);
    }
  }

  // ------------------------------------------------------------ properties

  /** bot2.py's reader treats rows independently and keeps document order:
      reading a page in two pieces gives the two results one after the other. */
  lemma {:induction false} LenientAppend(a: seq<RawRow>, b: seq<RawRow>)
    ensures Lenient(a + b) == Lenient(a) + Lenient(b)
    decreases |b|
  {
    if b == [] {
      assert a + b == a;
    } else {
      var init := b[..|b| - 1];
      assert (a + b)[..|a + b| - 1] == a + init;
      assert (a + b)[|a + b| - 1] == b[|b| - 1];
      LenientAppend(a, init);
    }
  }

  /** Every stored tuple comes from a usable row, and every usable row yields one. */
  lemma {:induction false} LenientMembers(rows: seq<RawRow>)
    ensures forall l :: l in Lenient(rows) ==>
      exists k :: 0 <= k < |rows| && Usable(rows[k]) && l == ToLinha(rows[k])
    ensures forall k :: 0 <= k < |rows| && Usable(rows[k]) ==> ToLinha(rows[k]) in Lenient(rows)
    decreases |rows|
  {
    if rows != [] {
      var init := rows[..|rows| - 1];
      LenientMembers(init);
      forall k | 0 <= k < |init| ensures init[k] == rows[k] { }
    }
  }

  /** Every field bot2.py stores is cleaned. */
  lemma {:induction false} LenientClean(rows: seq<RawRow>)
    ensures forall l :: l in Lenient(rows) ==>
      Clean(l.im) == l.im && Clean(l.cnpj) == l.cnpj && Clean(l.nome) == l.nome
      && Clean(l.omisso) == l.omisso && Clean(l.debito) == l.debito
    decreases |rows|
  {
    if rows != [] {
      LenientClean(rows[..|rows| - 1]);
      var last := rows[|rows| - 1];
      if Usable(last) {
        CleanIdempotent(last.cells[0]);
        CleanIdempotent(last.cells[1]);
        CleanIdempotent(last.cells[2]);
        CleanIdempotent(last.cells[3]);
        CleanIdempotent(last.cells[4]);
      }
    }
  }

  /** The strict readers succeed exactly when every row is usable, and then they
      build the same tuples as bot2.py's reader. */
  lemma {:induction false} StrictAgreesWithLenient(rows: seq<RawRow>)
    ensures Strict(rows).Ok? <==> (forall k :: 0 <= k < |rows| ==> Usable(rows[k]))
    ensures Strict(rows).Ok? ==> Strict(rows).value == Lenient(rows)
    decreases |rows|
  {
    if rows != [] {
      var init := rows[..|rows| - 1];
      StrictAgreesWithLenient(init);
      forall k | 0 <= k < |init| ensures init[k] == rows[k] { }
    }
  }

  /** A row with only four cells is skipped by bot2.py and fatal to the others. */
  lemma ShortRowExample()
    ensures Lenient([Cells(["1", "2", "3", "4"])]) == []
    ensures Strict([Cells(["1", "2", "3", "4"])]) == Err(BrowserError)
  {
    var rows := [Cells(["1", "2", "3", "4"])];
    assert rows[..0] == [];
  }

  /** Text without edge whitespace and without no-break spaces is stored as read. */
  lemma CleanPlain(s: string)
    requires s != [] ==> !IsSpace(s[0]) && !IsSpace(s[|s| - 1])
    requires forall i :: 0 <= i < |s| ==> s[i] != Nbsp
    ensures Clean(s) == s
  {
    StripNoEdgeSpace(s);
  }

  /** A digit string padded with a space in front and a no-break space behind
      (as the portal renders cnpj cells) is read back as the bare digits. */
  lemma CleanPadded(d: string)
    requires |d| > 0 && IsDigits(d)
    ensures Clean([' '] + d + [Nbsp]) == d
  {
    var x := [' '] + d + [Nbsp];
    var y := d + [Nbsp];
    assert x[1..] == y;
    assert TrimLeft(y) == y;
    assert y[..|y| - 1] == d;
    StripNoEdgeSpace(d);
    assert TrimRight(y) == TrimRight(d);
    CleanPlain(d);
  }
}
