/** The balance loader `carga_saldos.py`: it reads every "stock" workbook
    of the download folder, projects each onto the allow-listed columns,
    concatenates them, and inserts every row into `carga_saldos` with NaN
    turned into NULL and the four numeric columns coerced to floats.

    Reading a workbook is a parameter (None = `read_excel` raised, which
    the script does not catch); the database is the `Conexion` class. */
module CargaSaldos {
  import opened Wrappers
  import opened Text
  import opened Decimal
  import Trxs = CargaTrxs

  type Cell = Trxs.Cell
  type Value = Trxs.Value
  type Sheet = Trxs.Sheet

  // ---------------------------------------------------------------------
  // File filter
  // ---------------------------------------------------------------------

  /** The file test: the lower-cased name starts with "stock", while the
      extension is compared on the name as listed, so "STOCK_1.xlsx" is
      read and "stock_1.XLSX" is not. */
  predicate Seleccionado(archivo: string) {
    StartsWith(Lower(archivo), "stock")
    && (EndsWith(archivo, ".xlsx") || EndsWith(archivo, ".xls") || EndsWith(archivo, ".xlsm"))
  }

  /** The prefix test ignores case: any casing of "stock" followed by a
      lower-case extension is read. */
  lemma PrefixIgnoresCase(p: string, rest: string)
    requires Lower(p) == "stock"
    requires rest == ".xlsx" || rest == ".xls" || rest == ".xlsm"
    ensures Seleccionado(p + rest)
  {
    var s := p + rest;
    assert Lower(s)[..5] == Lower(p) by {
      assert |p| == 5;
      forall i | 0 <= i < 5 ensures Lower(s)[i] == Lower(p)[i] {
        assert s[i] == p[i];
      }
    }
    assert s[|s| - |rest|..] == rest;
  }

  /** The extension test does not ignore case: an upper-case extension is
      never read, whatever the prefix. */
  lemma UpperExtensionRejected(base: string, ext: string)
    requires ext == ".XLSX" || ext == ".XLS" || ext == ".XLSM"
    ensures !Seleccionado(base + ext)
  {
    var s := base + ext;
    assert s[|s| - 1] == ext[|ext| - 1];
    assert s[|s| - 1] in "XSM";
  }

  // ---------------------------------------------------------------------
  // Column projection
  // ---------------------------------------------------------------------

  const COLUMNAS_INCLUIR: seq<string> := [
    "FECHA", "NOMBRE", "RUT", "CUENTA", "CUENTA_PSH", "CUSTODIO",
    "NEMO", "DESCRIPCION", "CANTIDAD", "PRECIO", "MONTO_CLP", "MONTO_USD", "MONEDA"]

  /** The columns coerced to floats. */
  const NUMERICAS: seq<string> := ["CANTIDAD", "PRECIO", "MONTO_CLP", "MONTO_USD"]

  /** `df.drop(columns=['FECHA_INVERSION'])` when the column is present. */
  function SinFechaInversion(cols: seq<string>): (r: seq<string>)
    ensures "FECHA_INVERSION" !in r
    ensures forall c :: c != "FECHA_INVERSION" ==> (c in r <==> c in cols)
  {
    if cols == [] then []
    else if cols[0] == "FECHA_INVERSION" then SinFechaInversion(cols[1..])
    else [cols[0]] + SinFechaInversion(cols[1..])
  }

  /** `[col for col in allow if col in cols]`. */
  function Proyectar(allow: seq<string>, cols: seq<string>): (r: seq<string>)
    ensures forall c :: c in r <==> c in allow && c in cols
    ensures |r| <= |allow|
  {
    if allow == [] then []
    else (if allow[0] in cols then [allow[0]] else []) + Proyectar(allow[1..], cols)
  }

  /** `r` lists some of the entries of `s`, in the order of `s`. */
  predicate Subsequence(r: seq<string>, s: seq<string>) {
    if r == [] then true
    else if s == [] then false
    else if r[0] == s[0] then Subsequence(r[1..], s[1..])
    else Subsequence(r, s[1..])
  }

  /** The projection keeps the allow-list order. */
  lemma {:induction false} ProyectarOrdered(allow: seq<string>, cols: seq<string>)
    ensures Subsequence(Proyectar(allow, cols), allow)
  {
    if allow != [] {
      ProyectarOrdered(allow[1..], cols);
      var rest := Proyectar(allow[1..], cols);
      if allow[0] in cols {
        assert Proyectar(allow, cols) == [allow[0]] + rest;
        assert ([allow[0]] + rest)[1..] == rest;
      } else {
        assert Proyectar(allow, cols) == rest;
        if rest != [] {
          assert rest[0] != allow[0] by {
            assert rest[0] in rest;
          }
        }
      }
    }
  }

  /** The projection only looks at the allow-listed names of `cols`. */
  lemma {:induction false} ProyectarCongruent(allow: seq<string>, a: seq<string>, b: seq<string>)
    requires forall c :: c in allow ==> (c in a <==> c in b)
    ensures Proyectar(allow, a) == Proyectar(allow, b)
  {
    if allow != [] {
      assert allow[0] in allow;
      ProyectarCongruent(allow[1..], a, b);
    }
  }

  /** The workbook without FECHA_INVERSION, when it has that column. */
  function SoltarFechaInversion(sheet: Sheet): (p: Sheet)
    ensures p.rows == sheet.rows && "FECHA_INVERSION" !in p.columns
    ensures forall c :: c != "FECHA_INVERSION" ==> (c in p.columns <==> c in sheet.columns)
  {
    if "FECHA_INVERSION" in sheet.columns then Trxs.Sheet(SinFechaInversion(sheet.columns), sheet.rows) else sheet
  }

  /** One workbook after the drop and the projection. */
  function Proyectado(sheet: Sheet): (p: Sheet)
    ensures p.rows == sheet.rows
    ensures forall c :: c in p.columns <==> c in COLUMNAS_INCLUIR && c in sheet.columns
  {
    var df := SoltarFechaInversion(sheet);
    Trxs.Sheet(Proyectar(COLUMNAS_INCLUIR, df.columns), df.rows)
  }

  /** Dropping FECHA_INVERSION before the projection changes nothing: the
      allow-list does not contain it. */
  lemma DropRedundant(sheet: Sheet)
    ensures Proyectado(sheet).columns == Proyectar(COLUMNAS_INCLUIR, sheet.columns)
  {
    assert "FECHA_INVERSION" !in COLUMNAS_INCLUIR;
    ProyectarCongruent(COLUMNAS_INCLUIR, SoltarFechaInversion(sheet).columns, sheet.columns);
  }

  // ---------------------------------------------------------------------
  // Reading the folder
  // ---------------------------------------------------------------------

  /** One directory entry of the loop: a selected workbook is read,
      projected and appended; a failed read ends the script (None). */
  function Paso(prev: seq<Sheet>, archivo: string, read: string -> Option<Sheet>): Option<seq<Sheet>> {
    if !Seleccionado(archivo) then Some(prev)
    else
      var s := read(archivo);
      if s.None? then None else Some(prev + [Proyectado(s.value)])
  }

  /** `datos_totales` after the first `n` directory entries; None once a
      selected workbook failed to read. */
  function Frames(files: seq<string>, read: string -> Option<Sheet>, n: nat): Option<seq<Sheet>>
    requires n <= |files|
  {
    if n == 0 then Some([])
    else
      var prev := Frames(files, read, n - 1);
      if prev.None? then None else Paso(prev.value, files[n - 1], read)
  }

  /** The directory loop: each selected workbook is read, projected and
      appended to `datos_totales`. */
  method LeerArchivos(files: seq<string>, read: string -> Option<Sheet>) returns (datos: Option<seq<Sheet>>)
    ensures datos == Frames(files, read, |files|)
  {
    var totales: seq<Sheet> := [];
    var i := 0;
    while i < |files|
      invariant 0 <= i <= |files|
      invariant Frames(files, read, i) == Some(totales)
    {
      var archivo := files[i];
      FramesSiguiente(files, read, i, totales);
      if Seleccionado(archivo) {
        var df := read(archivo);
        if df.None? {
          FramesAbort(files, read, i + 1);
          return None;
        }
        totales := totales + [Proyectado(df.value)];
      }
      i := i + 1;
    }
    datos := Some(totales);
  }

  /** One entry of the directory loop. */
  lemma FramesSiguiente(files: seq<string>, read: string -> Option<Sheet>, i: nat, totales: seq<Sheet>)
    requires i < |files| && Frames(files, read, i) == Some(totales)
    ensures !Seleccionado(files[i]) ==> Frames(files, read, i + 1) == Some(totales)
    ensures Seleccionado(files[i]) && read(files[i]).None? ==> Frames(files, read, i + 1).None?
    ensures Seleccionado(files[i]) && read(files[i]).Some?
            ==> Frames(files, read, i + 1) == Some(totales + [Proyectado(read(files[i]).value)])
  {
  }

  /** Once a read has failed, the later entries cannot bring the run back. */
  lemma {:induction false} FramesAbort(files: seq<string>, read: string -> Option<Sheet>, n: nat)
    requires 0 < n <= |files|
    requires Frames(files, read, n).None?
    ensures Frames(files, read, |files|).None?
    decreases |files| - n
  {
    if n < |files| {
      FramesAbort(files, read, n + 1);
    }
  }

  /** The rows of the selected workbooks among the first `n` entries. */
  function FilasSeleccionadas(files: seq<string>, read: string -> Option<Sheet>, n: nat): nat
    requires n <= |files|
  {
    if n == 0 then 0
    else
      var s := read(files[n - 1]);
      FilasSeleccionadas(files, read, n - 1)
        + (if Seleccionado(files[n - 1]) && s.Some? then |s.value.rows| else 0)
  }

  // ---------------------------------------------------------------------
  // Concatenation
  // ---------------------------------------------------------------------

  /** One row of `df_final`: the columns of the frame it came from, and its
      cells. */
  datatype Fila = Fila(columns: seq<string>, cells: map<string, Cell>)

  /** `pd.concat(datos_totales, ignore_index=True)`: the rows of every frame,
      frame after frame; an empty list gives an empty frame. */
  function Concat(frames: seq<Sheet>): seq<Fila> {
    if frames == [] then []
    else
      var last := frames[|frames| - 1];
      Concat(frames[..|frames| - 1]) + seq(|last.rows|, i requires 0 <= i < |last.rows| => Fila(last.columns, last.rows[i]))
  }

  /** `row.get(col)`: a column the row's frame lacks reads as NaN. */
  function Get(f: Fila, col: string): Cell {
    if col in f.columns && col in f.cells then f.cells[col] else Trxs.Missing
  }

  /** `df_final` has one row per row of the selected workbooks. */
  lemma {:induction false} ConcatCount(files: seq<string>, read: string -> Option<Sheet>, n: nat)
    requires n <= |files|
    requires Frames(files, read, n).Some?
    ensures |Concat(Frames(files, read, n).value)| == FilasSeleccionadas(files, read, n)
  {
    if n > 0 {
      var prev := Frames(files, read, n - 1);
      assert prev.Some?;
      ConcatCount(files, read, n - 1);
      if Seleccionado(files[n - 1]) {
        var s := read(files[n - 1]);
        var frames := prev.value + [Proyectado(s.value)];
        assert frames[..|frames| - 1] == prev.value;
      }
    }
  }

  // ---------------------------------------------------------------------
  // Cleaning the values of a row
  // ---------------------------------------------------------------------

  /** What `float(str(valor).replace(",", "").strip())` reads from a text
      cell, None where it raises. */
  function FloatSinComas(s: string): Option<real> {
    Trxs.ParseFloat(Strip(RemoveChar(s, ',')))
  }

  /** One entry of `valores`. NaN becomes None in every column. A numeric
      column takes the float of the text without commas, or None when that
      fails (a float cell: `str()` followed by `float()` gives the value
      back; a Timestamp's text is not a float). Other columns strip
      strings and pass every other value through. */
  function Limpiar(col: string, c: Cell): Value {
    if c.Missing? then Trxs.Null
    else if col in NUMERICAS then
      match c
      case Str(s) =>
        (match FloatSinComas(s)
         case Some(x) => Trxs.Number(x)
         case None => Trxs.Null)
      case Num(v, _) => Trxs.Number(v)
      case Stamp(_) => Trxs.Null
    else if c.Str? then Trxs.Stripped(Trxs.StripIdempotent(c.s))
    else Trxs.Raw(c)
  }

  /** A missing cell is None; a numeric column yields only numbers and
      None; any other column yields None, stripped text or the raw value,
      and only a text cell yields stripped text. */
  lemma LimpiarForma(col: string, c: Cell)
    ensures c.Missing? ==> Limpiar(col, c) == Trxs.Null
    ensures col in NUMERICAS ==> Limpiar(col, c).Null? || Limpiar(col, c).Number?
    ensures col !in NUMERICAS ==> Limpiar(col, c).Null? || Limpiar(col, c).Stripped? || Limpiar(col, c).Raw?
    ensures Limpiar(col, c).Stripped? ==> c.Str? && Strip(Limpiar(col, c).s) == Limpiar(col, c).s
  {
  }

  /** The `valores` of one row: one entry per allow-listed column, in list
      order. */
  function ValoresDe(f: Fila): (vs: seq<Value>)
    ensures |vs| == |COLUMNAS_INCLUIR|
  {
    seq(|COLUMNAS_INCLUIR|, i requires 0 <= i < |COLUMNAS_INCLUIR| => Limpiar(COLUMNAS_INCLUIR[i], Get(f, COLUMNAS_INCLUIR[i])))
  }

  /** The inner column loop, appending to `valores`. */
  method ConstruirValores(f: Fila) returns (valores: seq<Value>)
    ensures valores == ValoresDe(f)
  {
    valores := [];
    for i := 0 to |COLUMNAS_INCLUIR|
      invariant valores == ValoresDe(f)[..i]
    {
      var col := COLUMNAS_INCLUIR[i];
      valores := valores + [Limpiar(col, Get(f, col))];
      assert ValoresDe(f)[..i + 1] == ValoresDe(f)[..i] + [ValoresDe(f)[i]];
    }
    assert ValoresDe(f)[..|COLUMNAS_INCLUIR|] == ValoresDe(f);
  }

  /** A numeric text cell with ',' between thousands and '.' before the
      decimals ("1,234.56") is read as the number it denotes. */
  lemma CommaThousands(col: string, w: string, fp: string)
    requires col in NUMERICAS
    requires RemoveChar(w, ',') != [] && AllDigits(RemoveChar(w, ','))
    requires AllDigits(fp)
    ensures Limpiar(col, Trxs.Str(w + "." + fp)) == Trxs.Number(DecimalValue(RemoveChar(w, ','), fp))
  {
    FloatSinComasDecimal(w, fp);
  }

  lemma FloatSinComasDecimal(w: string, fp: string)
    requires RemoveChar(w, ',') != [] && AllDigits(RemoveChar(w, ','))
    requires AllDigits(fp)
    ensures FloatSinComas(w + "." + fp) == Some(DecimalValue(RemoveChar(w, ','), fp))
  {
    var ip := RemoveChar(w, ',');
    RemoveCommasDecimal(w, fp);
    Trxs.StripDigits(ip + "." + fp);
    Trxs.ParseFloatDecimal(ip, fp);
  }

  lemma RemoveCommasDecimal(w: string, fp: string)
    requires AllDigits(fp)
    ensures RemoveChar(w + "." + fp, ',') == RemoveChar(w, ',') + "." + fp
  {
    DigitsHaveNoDot(fp);
    assert ',' !in "." + fp;
    RemoveCharConcat(w, "." + fp, ',');
    RemoveAbsentChar("." + fp, ',');
    assert w + "." + fp == w + ("." + fp);
  }

  /** A numeric text cell that `float()` rejects, once its commas are
      gone, is stored as NULL, not as 0. */
  lemma UnparseableIsNull(col: string, s: string)
    requires col in NUMERICAS && FloatSinComas(s).None?
    ensures Limpiar(col, Trxs.Str(s)) == Trxs.Null
  {
  }

  /** "N/A" in PRECIO is one such text: it gives None. */
  lemma NoDisponibleEsNull(s: string)
    requires s == "N/A"
    ensures FloatSinComas(s).None?
    ensures Limpiar("PRECIO", Trxs.Str(s)) == Trxs.Null
  {
    assert RemoveChar(s, ',') == s by {
      RemoveAbsentChar(s, ',');
    }
    StripLetters(s);
    ParseFloatLetters(s);
    UnparseableIsNull("PRECIO", s);
  }

  lemma StripLetters(s: string)
    requires s == "N/A"
    ensures Strip(s) == s
  {
    assert !IsWhitespace(s[0]) && !IsWhitespace(s[|s| - 1]);
    assert StripStart(s) == s;
    assert StripEnd(s) == s;
  }

  lemma ParseFloatLetters(s: string)
    requires s == "N/A"
    ensures Trxs.ParseFloat(s) == None
  {
    StripLetters(s);
    assert s[0] == 'N';
    assert !IsDigit(s[0]);
    assert '.' !in s;
    Text.SplitNoSep(s, '.');
    Trxs.SinExponente(s);
    assert Trxs.ParseUnsigned(s) == None;
  }

  /** A row's values depend only on its allow-listed columns, so the
      dropped FECHA_INVERSION column can never reach the table. */
  lemma ValoresIgnoreOtherColumns(f: Fila, g: Fila)
    requires forall c :: c in COLUMNAS_INCLUIR ==> Get(f, c) == Get(g, c)
    ensures ValoresDe(f) == ValoresDe(g)
  {
    forall i | 0 <= i < |COLUMNAS_INCLUIR|
      ensures ValoresDe(f)[i] == ValoresDe(g)[i]
    {
      assert COLUMNAS_INCLUIR[i] in COLUMNAS_INCLUIR;
    }
  }

  // ---------------------------------------------------------------------
  // The database
  // ---------------------------------------------------------------------

  /** The MySQL connection: the rows inserted into `carga_saldos` and
      whether they were committed. */
  /** The `pymysql` connection of the script: the rows its INSERTs have
      put in `carga_saldos` and whether they were committed. `acepta` says
      whether the server accepts the INSERT of a value row. */
  class Conexion {
    var filas: seq<seq<Value>>
    var committed: bool
    const acepta: seq<Value> -> bool

    constructor (acepta: seq<Value> -> bool)
      ensures filas == [] && !committed
      ensures this.acepta == acepta
    {
      filas := [];
      committed := false;
      this.acepta := acepta;
    }

    /** `cursor.execute(sql, tuple(valores))`: `ok` is false when the
        statement raises, and then nothing is inserted. */
    method Insert(valores: seq<Value>) returns (ok: bool)
      modifies this
      ensures ok == acepta(valores)
      ensures filas == old(filas) + (if ok then [valores] else [])
      ensures committed == old(committed)
    {
      ok := acepta(valores);
      if ok {
        filas := filas + [valores];
      }
    }

    method Commit()
      modifies this
      ensures committed && filas == old(filas)
    {
      committed := true;
    }

    /** `conexion.close()`: a transaction that was never committed is
        rolled back, so its rows are gone. */
    method Close()
      modifies this
      ensures filas == (if committed then old(filas) else [])
      ensures committed == old(committed)
    {
      if !committed {
        filas := [];
      }
    }
  }

  /** The cleaned values of every row of `df_final`, in row order. */
  function Insertadas(filas: seq<Fila>): (out: seq<seq<Value>>)
    ensures |out| == |filas|
    ensures forall i :: 0 <= i < |filas| ==> out[i] == ValoresDe(filas[i])
  {
    seq(|filas|, i requires 0 <= i < |filas| => ValoresDe(filas[i]))
  }

  /** How many value rows the server accepts before it refuses one: every
      row before the result is accepted, and the row at the result, if any,
      is refused. */
  function PrimerRechazo(vs: seq<seq<Value>>, acepta: seq<Value> -> bool): (k: nat)
    ensures k <= |vs|
    ensures forall i :: 0 <= i < k ==> acepta(vs[i])
    ensures k < |vs| ==> !acepta(vs[k])
  {
    if vs == [] || !acepta(vs[0]) then 0
    else 1 + PrimerRechazo(vs[1..], acepta)
  }

  /** The row loop: one INSERT per row of `df_final`, in row order, until
      the first one the server refuses, which raises out of the loop. */
  method InsertarFilas(db: Conexion, filas: seq<Fila>) returns (ok: bool)
    requires db.filas == []
    modifies db
    ensures var k := PrimerRechazo(Insertadas(filas), db.acepta);
      db.filas == Insertadas(filas)[..k] && (ok <==> k == |filas|)
    ensures db.committed == old(db.committed)
  {
    ghost var vs := Insertadas(filas);
    var i := 0;
    while i < |filas|
      invariant 0 <= i <= |filas|
      invariant db.filas == vs[..i]
      invariant forall j :: 0 <= j < i ==> db.acepta(vs[j])
      invariant db.committed == old(db.committed)
    {
      var valores := ConstruirValores(filas[i]);
      ok := db.Insert(valores);
      if !ok {
        return;
      }
      assert vs[..i + 1] == vs[..i] + [vs[i]];
      i := i + 1;
    }
    assert vs[..i] == vs;
    ok := true;
  }

  /** The whole script. When a selected workbook cannot be read the script
      raises before connecting (null). Otherwise the rows of the selected
      workbooks are inserted cleaned, in directory order; when the server
      accepts them all they are committed once, and when it refuses one the
      exception skips the commit and `close` rolls back the rows sent
      before it. */
  method CargaSaldos(files: seq<string>, read: string -> Option<Sheet>, acepta: seq<Value> -> bool)
    returns (db: Conexion?)
    ensures db == null <==> Frames(files, read, |files|).None?
    ensures db != null ==> db.acepta == acepta
    ensures db != null ==>
      var vs := Insertadas(Concat(Frames(files, read, |files|).value));
      (db.committed <==> PrimerRechazo(vs, acepta) == |vs|) &&
      db.filas == (if db.committed then vs else [])
    ensures db != null && db.committed ==> |db.filas| == FilasSeleccionadas(files, read, |files|)
    ensures db != null && (forall v :: acepta(v)) ==> db.committed
  {
    var datos := LeerArchivos(files, read);
    if datos.None? {
      return null;
    }
    var dfFinal := Concat(datos.value);
    ConcatCount(files, read, |files|);
    db := new Conexion(acepta);
    var ok := InsertarFilas(db, dfFinal);
    if ok {
      db.Commit();
    }
    db.Close();
  }
}
