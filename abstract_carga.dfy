/** `AbstractCarga.processFile`: one spreadsheet file read sheet by sheet
    and row by row, each row mapped to a DTO and handed to the processor.
    The workbook library, the mapper and the sheet typing of the concrete
    loader are parameters. */
module AbstractCarga {
  import opened Wrappers
  import opened Text

  /** What the mapper makes of one row: a DTO, null (the end of the data),
      or a `MappingException`. */
  datatype Mapeo<T> = Dto(dto: T) | FinDeDatos | ErrorDeMapeo

  /** A sheet: its rows from 0 to `getLastRowNum()`, a missing row being
      `None`. */
  datatype Hoja<R> = Hoja(filas: seq<Option<R>>)

  /** Opening the workbook either gives its sheets or fails with an
      `IOException` and its message. */
  datatype Apertura<R> = Libro(hojas: seq<Hoja<R>>) | ErrorIO(mensaje: string)

  /** A file: its name, whether it exists, and what opening it gives. */
  datatype Archivo<R> = Archivo(nombre: string, existe: bool, apertura: Apertura<R>)

  /** `ResultadoCargaDto`, without the elapsed time. */
  datatype Resultado = Fallido(mensaje: string) | Exitoso(filasProcesadas: nat, mensaje: string)

  /** The DTOs handed to the processor, in order, and the mapping errors. */
  datatype Lectura<T> = Lectura(dtos: seq<T>, errores: nat)

  /** Having handed over `dtos` and counted `errores`, reading `resto`
      amounts to reading `total`. */
  ghost predicate Seguida<T>(dtos: seq<T>, errores: nat, resto: Lectura<T>, total: Lectura<T>) {
    dtos + resto.dtos == total.dtos && errores + resto.errores == total.errores
  }

  const INVALIDO: string := "El archivo proporcionado es inválido o no existe."
  const ERROR_IO: string := "Error de I/O al leer el archivo: "

  /** The summary message of a completed load. */
  function Mensaje(filas: nat, errores: nat): string {
    "Proceso completado. Filas procesadas: " + NatToString(filas) + ", Errores: " + NatToString(errores) + "."
  }

  // ---------------------------------------------------------------------
  // What a load reads
  // ---------------------------------------------------------------------

  /** What one row contributes: nothing when it is missing, its DTO, or
      one mapping error. */
  function AporteFila<R, T>(tipo: string, fila: Option<R>, j: nat,
                            mapear: (string, R, nat, string) -> Mapeo<T>, nombre: string): Lectura<T>
  {
    if fila.None? then Lectura([], 0)
    else match mapear(tipo, fila.value, j + 1, nombre)
      case Dto(x) => Lectura([x], 0)
      case ErrorDeMapeo => Lectura([], 1)
      case FinDeDatos => Lectura([], 0)
  }

  /** Row `j` is the end of the data: it exists and maps to null. */
  predicate EsFin<R, T>(tipo: string, fila: Option<R>, j: nat,
                        mapear: (string, R, nat, string) -> Mapeo<T>, nombre: string) {
    fila.Some? && mapear(tipo, fila.value, j + 1, nombre).FinDeDatos?
  }

  /** Rows `j` onwards of a sheet of type `tipo`: missing rows are
      skipped, a mapping error is counted and reading goes on, and the
      first null DTO ends the sheet. The mapper receives the 1-based row
      number and the file name. */
  function LeerFilas<R, T>(tipo: string, filas: seq<Option<R>>, j: nat,
                          mapear: (string, R, nat, string) -> Mapeo<T>, nombre: string): Lectura<T>
    decreases |filas| - j
  {
    if j >= |filas| || EsFin(tipo, filas[j], j, mapear, nombre) then Lectura([], 0)
    else
      var fila := AporteFila(tipo, filas[j], j, mapear, nombre);
      var resto := LeerFilas(tipo, filas, j + 1, mapear, nombre);
      Lectura(fila.dtos + resto.dtos, fila.errores + resto.errores)
  }

  /** A sheet whose type is null or blank is skipped; any other is read
      from the row after the header. */
  function LeerHoja<R, T>(i: nat, hoja: Hoja<R>, tipoHoja: nat -> Option<string>,
                         mapear: (string, R, nat, string) -> Mapeo<T>, cabecera: nat, nombre: string): Lectura<T>
  {
    var tipo := tipoHoja(i);
    if tipo.None? || IsBlank(tipo.value) then Lectura([], 0)
    else LeerFilas(tipo.value, hoja.filas, cabecera + 1, mapear, nombre)
  }

  /** Sheets `i` onwards of the workbook. */
  function LeerLibro<R, T>(hojas: seq<Hoja<R>>, i: nat, tipoHoja: nat -> Option<string>,
                          mapear: (string, R, nat, string) -> Mapeo<T>, cabecera: nat, nombre: string): Lectura<T>
    decreases |hojas| - i
  {
    if i >= |hojas| then Lectura([], 0)
    else
      var hoja := LeerHoja(i, hojas[i], tipoHoja, mapear, cabecera, nombre);
      var resto := LeerLibro(hojas, i + 1, tipoHoja, mapear, cabecera, nombre);
      Lectura(hoja.dtos + resto.dtos, hoja.errores + resto.errores)
  }

  /** A missing or non-existent file, or an Excel lock file ("~$..."), is
      not processed. */
  predicate Invalido<R>(archivo: Option<Archivo<R>>) {
    archivo.None? || !archivo.value.existe || StartsWith(archivo.value.nombre, "~$")
  }

  // ---------------------------------------------------------------------
  // Reading in steps
  // ---------------------------------------------------------------------

  /** Nothing read yet: what is left is everything. */
  lemma NadaLeido<T>(total: Lectura<T>)
    ensures Seguida([], 0, total, total)
  {
    assert [] + total.dtos == total.dtos;
  }

  /** Nothing left: what was read is everything. */
  lemma NadaQueda<T>(hecho: Lectura<T>, total: Lectura<T>)
    requires Seguida(hecho.dtos, hecho.errores, Lectura([], 0), total)
    ensures hecho == total
  {
    assert hecho.dtos + [] == hecho.dtos;
  }

  /** Moving one contribution `x` from what is still to read to what was
      read. */
  lemma Avanza<T>(hecho: Lectura<T>, x: Lectura<T>, siguiente: Lectura<T>, resto: Lectura<T>, total: Lectura<T>)
    requires Seguida(hecho.dtos, hecho.errores, resto, total) && Seguida(x.dtos, x.errores, siguiente, resto)
    ensures Seguida(hecho.dtos + x.dtos, hecho.errores + x.errores, siguiente, total)
  {
    assert hecho.dtos + (x.dtos + siguiente.dtos) == hecho.dtos + x.dtos + siguiente.dtos;
  }

  /** A row that is not the end of the data moves its contribution from
      what is still to read to what was read. */
  lemma FilaLeida<R, T>(tipo: string, filas: seq<Option<R>>, j: nat,
                        mapear: (string, R, nat, string) -> Mapeo<T>, nombre: string,
                        hecho: Lectura<T>, total: Lectura<T>)
    requires j < |filas| && !EsFin(tipo, filas[j], j, mapear, nombre)
    requires Seguida(hecho.dtos, hecho.errores, LeerFilas(tipo, filas, j, mapear, nombre), total)
    ensures var x := AporteFila(tipo, filas[j], j, mapear, nombre);
      Seguida(hecho.dtos + x.dtos, hecho.errores + x.errores, LeerFilas(tipo, filas, j + 1, mapear, nombre), total)
  {
    Avanza(hecho, AporteFila(tipo, filas[j], j, mapear, nombre), LeerFilas(tipo, filas, j + 1, mapear, nombre),
           LeerFilas(tipo, filas, j, mapear, nombre), total);
  }

  /** At the end of the data, what was read is all the sheet gives. */
  lemma FilaFinal<R, T>(tipo: string, filas: seq<Option<R>>, j: nat,
                        mapear: (string, R, nat, string) -> Mapeo<T>, nombre: string,
                        hecho: Lectura<T>, total: Lectura<T>)
    requires j < |filas| && EsFin(tipo, filas[j], j, mapear, nombre)
    requires Seguida(hecho.dtos, hecho.errores, LeerFilas(tipo, filas, j, mapear, nombre), total)
    ensures hecho == total
  {
    NadaQueda(hecho, total);
  }

  // ---------------------------------------------------------------------
  // processFile
  // ---------------------------------------------------------------------

  /** The body of the row loop for row `j`: the row is mapped and its DTO
      handed over, or its error counted; `fin` says the row ended the data,
      and then what was read is all the sheet gives. */
  method LeerFila<R, T>(tipo: string, filas: seq<Option<R>>, j: nat, mapear: (string, R, nat, string) -> Mapeo<T>,
                        nombre: string, procesados: seq<T>, filasProcesadas: nat, erroresDeMapeo: nat,
                        ghost total: Lectura<T>)
    returns (procesados': seq<T>, filasProcesadas': nat, erroresDeMapeo': nat, fin: bool)
    requires j < |filas| && filasProcesadas == |procesados|
    requires Seguida(procesados, erroresDeMapeo, LeerFilas(tipo, filas, j, mapear, nombre), total)
    ensures fin <==> EsFin(tipo, filas[j], j, mapear, nombre)
    ensures fin ==> Lectura(procesados', erroresDeMapeo') == total
    ensures !fin ==> Seguida(procesados', erroresDeMapeo', LeerFilas(tipo, filas, j + 1, mapear, nombre), total)
    ensures filasProcesadas' == |procesados'|
  {
    ghost var antes := Lectura(procesados, erroresDeMapeo);
    procesados', filasProcesadas', erroresDeMapeo', fin := procesados, filasProcesadas, erroresDeMapeo, false;
    var fila := filas[j];
    if fila.None? {
      assert procesados + [] == procesados;
    } else {
      var dto := mapear(tipo, fila.value, j + 1, nombre);
      if dto.FinDeDatos? {
        FilaFinal(tipo, filas, j, mapear, nombre, antes, total);
        return procesados, filasProcesadas, erroresDeMapeo, true;
      } else if dto.Dto? {
        procesados' := procesados + [dto.dto];
        filasProcesadas' := filasProcesadas + 1;
      } else {
        erroresDeMapeo' := erroresDeMapeo + 1;
        assert procesados + [] == procesados;
      }
    }
    FilaLeida(tipo, filas, j, mapear, nombre, antes, total);
  }

  /** The row loop of one sheet, from the row after the header to the last
      row. */
  method ProcesarHoja<R, T>(tipo: string, hoja: Hoja<R>, mapear: (string, R, nat, string) -> Mapeo<T>,
                            cabecera: nat, nombre: string)
    returns (procesados: seq<T>, filasProcesadas: nat, erroresDeMapeo: nat)
    ensures Lectura(procesados, erroresDeMapeo) == LeerFilas(tipo, hoja.filas, cabecera + 1, mapear, nombre)
    ensures filasProcesadas == |procesados|
  {
    ghost var total := LeerFilas(tipo, hoja.filas, cabecera + 1, mapear, nombre);
    procesados, filasProcesadas, erroresDeMapeo := [], 0, 0;
    NadaLeido(total);
    var j := cabecera + 1;
    while j <= |hoja.filas| - 1
      invariant cabecera < j
      invariant Seguida(procesados, erroresDeMapeo, LeerFilas(tipo, hoja.filas, j, mapear, nombre), total)
      invariant filasProcesadas == |procesados|
      decreases |hoja.filas| - j
    {
      var fin;
      procesados, filasProcesadas, erroresDeMapeo, fin :=
        LeerFila(tipo, hoja.filas, j, mapear, nombre, procesados, filasProcesadas, erroresDeMapeo, total);
      if fin {
        return;
      }
      j := j + 1;
    }
    NadaQueda(Lectura(procesados, erroresDeMapeo), total);
  }

  /** `processFile`: an invalid file or an unreadable workbook gives
      `fallido`; otherwise every sheet is read, and the result counts the
      DTOs handed to the processor, which are returned in the order they
      were handed over. */
  method ProcessFile<R, T>(archivo: Option<Archivo<R>>, tipoHoja: nat -> Option<string>,
                           mapear: (string, R, nat, string) -> Mapeo<T>, cabecera: nat)
    returns (r: Resultado, procesados: seq<T>)
    ensures Invalido(archivo) ==> r == Fallido(INVALIDO) && procesados == []
    ensures !Invalido(archivo) && archivo.value.apertura.ErrorIO? ==>
      r == Fallido(ERROR_IO + archivo.value.apertura.mensaje) && procesados == []
    ensures !Invalido(archivo) && archivo.value.apertura.Libro? ==>
      var l := LeerLibro(archivo.value.apertura.hojas, 0, tipoHoja, mapear, cabecera, archivo.value.nombre);
      procesados == l.dtos && r == Exitoso(|l.dtos|, Mensaje(|l.dtos|, l.errores))
  {
    if archivo.None? || !archivo.value.existe || StartsWith(archivo.value.nombre, "~$") {
      return Fallido(INVALIDO), [];
    }
    var nombre := archivo.value.nombre;
    if archivo.value.apertura.ErrorIO? {
      return Fallido(ERROR_IO + archivo.value.apertura.mensaje), [];
    }
    var hojas := archivo.value.apertura.hojas;
    ghost var total := LeerLibro(hojas, 0, tipoHoja, mapear, cabecera, nombre);
    var filasProcesadas, erroresDeMapeo := 0, 0;
    procesados := [];
    NadaLeido(total);
    var i := 0;
    while i < |hojas|
      invariant i <= |hojas|
      invariant Seguida(procesados, erroresDeMapeo, LeerLibro(hojas, i, tipoHoja, mapear, cabecera, nombre), total)
      invariant filasProcesadas == |procesados|
    {
      ghost var antes := Lectura(procesados, erroresDeMapeo);
      ghost var aporte := LeerHoja(i, hojas[i], tipoHoja, mapear, cabecera, nombre);
      var tipo := tipoHoja(i);
      if !(tipo.None? || IsBlank(tipo.value)) {
        var dtos, filas, errores := ProcesarHoja(tipo.value, hojas[i], mapear, cabecera, nombre);
        procesados := procesados + dtos;
        filasProcesadas := filasProcesadas + filas;
        erroresDeMapeo := erroresDeMapeo + errores;
      } else {
        assert procesados + [] == procesados;
      }
      Avanza(antes, aporte, LeerLibro(hojas, i + 1, tipoHoja, mapear, cabecera, nombre),
             LeerLibro(hojas, i, tipoHoja, mapear, cabecera, nombre), total);
      i := i + 1;
    }
    NadaQueda(Lectura(procesados, erroresDeMapeo), total);
    r := Exitoso(filasProcesadas, Mensaje(filasProcesadas, erroresDeMapeo));
  }

  // ---------------------------------------------------------------------
  // Properties of a load
  // ---------------------------------------------------------------------

  /** The number of rows from `j` on that exist. */
  function FilasPresentes<R>(filas: seq<Option<R>>, j: nat): nat
    decreases |filas| - j
  {
    if j >= |filas| then 0 else (if filas[j].Some? then 1 else 0) + FilasPresentes(filas, j + 1)
  }

  /** No existing row from `j` on maps to null. */
  predicate SinFin<R, T>(tipo: string, filas: seq<Option<R>>, j: nat,
                         mapear: (string, R, nat, string) -> Mapeo<T>, nombre: string) {
    forall k :: j <= k < |filas| ==> !EsFin(tipo, filas[k], k, mapear, nombre)
  }

  /** Each existing row read is either handed over or counted as an error,
      never both; with no end of data, every existing row is one or the
      other. */
  lemma {:induction false} CadaFilaUnaVez<R, T>(tipo: string, filas: seq<Option<R>>, j: nat,
                                                mapear: (string, R, nat, string) -> Mapeo<T>, nombre: string)
    ensures var l := LeerFilas(tipo, filas, j, mapear, nombre);
      |l.dtos| + l.errores <= FilasPresentes(filas, j)
      && (SinFin(tipo, filas, j, mapear, nombre) ==> |l.dtos| + l.errores == FilasPresentes(filas, j))
    decreases |filas| - j
  {
    if j < |filas| {
      CadaFilaUnaVez(tipo, filas, j + 1, mapear, nombre);
      if SinFin(tipo, filas, j, mapear, nombre) {
        assert SinFin(tipo, filas, j + 1, mapear, nombre);
      }
    }
  }

  /** The first null DTO ends the sheet: the rows after it are never
      mapped, so the sheet reads as if it stopped there. */
  lemma {:induction false} FinDeDatosCorta<R, T>(tipo: string, filas: seq<Option<R>>, j: nat, k: nat,
                                                 mapear: (string, R, nat, string) -> Mapeo<T>, nombre: string)
    requires j <= k < |filas| && filas[k].Some?
    requires mapear(tipo, filas[k].value, k + 1, nombre) == FinDeDatos
    ensures LeerFilas(tipo, filas, j, mapear, nombre) == LeerFilas(tipo, filas[..k], j, mapear, nombre)
    decreases k - j
  {
    if j < k {
      FinDeDatosCorta(tipo, filas, j + 1, k, mapear, nombre);
      assert filas[..k][j] == filas[j];
    }
  }

  /** A sheet read only as far as its end of data contributes to the
      workbook as the truncated sheet would: the sheets after it are still
      read. */
  lemma FinDeDatosSoloEsaHoja<R, T>(hojas: seq<Hoja<R>>, i: nat, k: nat, tipoHoja: nat -> Option<string>,
                                    mapear: (string, R, nat, string) -> Mapeo<T>, cabecera: nat, nombre: string)
    requires i < |hojas| && cabecera + 1 <= k < |hojas[i].filas| && hojas[i].filas[k].Some?
    requires tipoHoja(i).Some? && mapear(tipoHoja(i).value, hojas[i].filas[k].value, k + 1, nombre) == FinDeDatos
    ensures var cortada := LeerHoja(i, Hoja(hojas[i].filas[..k]), tipoHoja, mapear, cabecera, nombre);
      Seguida(cortada.dtos, cortada.errores,
              LeerLibro(hojas, i + 1, tipoHoja, mapear, cabecera, nombre),
              LeerLibro(hojas, i, tipoHoja, mapear, cabecera, nombre))
  {
    FinDeDatosCorta(tipoHoja(i).value, hojas[i].filas, cabecera + 1, k, mapear, nombre);
    assert LeerHoja(i, hojas[i], tipoHoja, mapear, cabecera, nombre)
        == LeerHoja(i, Hoja(hojas[i].filas[..k]), tipoHoja, mapear, cabecera, nombre);
  }

  /** Sheets are read independently: the load of a workbook is the load of
      its first `i` sheets followed by the load of the rest. */
  lemma LibroPartido<R, T>(hojas: seq<Hoja<R>>, i: nat, tipoHoja: nat -> Option<string>,
                           mapear: (string, R, nat, string) -> Mapeo<T>, cabecera: nat, nombre: string)
    requires i <= |hojas|
    ensures var primeras := LeerLibro(hojas[..i], 0, tipoHoja, mapear, cabecera, nombre);
      Seguida(primeras.dtos, primeras.errores,
              LeerLibro(hojas, i, tipoHoja, mapear, cabecera, nombre),
              LeerLibro(hojas, 0, tipoHoja, mapear, cabecera, nombre))
  {
    PrefijoDesde(hojas, i, 0, tipoHoja, mapear, cabecera, nombre);
  }

  lemma {:induction false} PrefijoDesde<R, T>(hojas: seq<Hoja<R>>, i: nat, j: nat, tipoHoja: nat -> Option<string>,
                                              mapear: (string, R, nat, string) -> Mapeo<T>, cabecera: nat, nombre: string)
    requires j <= i <= |hojas|
    ensures var primeras := LeerLibro(hojas[..i], j, tipoHoja, mapear, cabecera, nombre);
      Seguida(primeras.dtos, primeras.errores,
              LeerLibro(hojas, i, tipoHoja, mapear, cabecera, nombre),
              LeerLibro(hojas, j, tipoHoja, mapear, cabecera, nombre))
    decreases i - j
  {
    var resto := LeerLibro(hojas, i, tipoHoja, mapear, cabecera, nombre);
    var primeras := hojas[..i];
    if j < i {
      PrefijoDesde(hojas, i, j + 1, tipoHoja, mapear, cabecera, nombre);
      assert primeras[j] == hojas[j];
      var h := LeerHoja(j, hojas[j], tipoHoja, mapear, cabecera, nombre);
      var q := LeerLibro(hojas, j + 1, tipoHoja, mapear, cabecera, nombre);
      assert h.dtos + q.dtos == LeerLibro(hojas, j, tipoHoja, mapear, cabecera, nombre).dtos;
      Avanza(h, LeerLibro(primeras, j + 1, tipoHoja, mapear, cabecera, nombre), resto, q,
             LeerLibro(hojas, j, tipoHoja, mapear, cabecera, nombre));
    } else {
      assert LeerLibro(primeras, j, tipoHoja, mapear, cabecera, nombre) == Lectura([], 0);
      NadaLeido(resto);
    }
  }

  /** Sheets with no type from `i` on add nothing to the load. */
  lemma {:induction false} HojasSinTipo<R, T>(hojas: seq<Hoja<R>>, i: nat, tipoHoja: nat -> Option<string>,
                                              mapear: (string, R, nat, string) -> Mapeo<T>, cabecera: nat, nombre: string)
    requires forall k :: i <= k < |hojas| ==> tipoHoja(k).None? || IsBlank(tipoHoja(k).value)
    ensures LeerLibro(hojas, i, tipoHoja, mapear, cabecera, nombre) == Lectura([], 0)
    decreases |hojas| - i
  {
    if i < |hojas| {
      HojasSinTipo(hojas, i + 1, tipoHoja, mapear, cabecera, nombre);
    }
  }

  /** Sheet `i` as the loader reads it; nothing if the workbook has no
      such sheet. */
  function HojaLeida<R, T>(hojas: seq<Hoja<R>>, i: nat, tipoHoja: nat -> Option<string>,
                          mapear: (string, R, nat, string) -> Mapeo<T>, cabecera: nat, nombre: string): Lectura<T>
  {
    if i < |hojas| then LeerHoja(i, hojas[i], tipoHoja, mapear, cabecera, nombre) else Lectura([], 0)
  }

  /** When only the first two sheets have a type, the load is those two
      sheets, whatever else the workbook holds. */
  lemma DosHojas<R, T>(hojas: seq<Hoja<R>>, tipoHoja: nat -> Option<string>,
                       mapear: (string, R, nat, string) -> Mapeo<T>, cabecera: nat, nombre: string)
    requires forall k :: 2 <= k < |hojas| ==> tipoHoja(k).None? || IsBlank(tipoHoja(k).value)
    ensures var h0 := HojaLeida(hojas, 0, tipoHoja, mapear, cabecera, nombre);
      Seguida(h0.dtos, h0.errores,
              HojaLeida(hojas, 1, tipoHoja, mapear, cabecera, nombre),
              LeerLibro(hojas, 0, tipoHoja, mapear, cabecera, nombre))
  {
    var h0 := HojaLeida(hojas, 0, tipoHoja, mapear, cabecera, nombre);
    var h1 := HojaLeida(hojas, 1, tipoHoja, mapear, cabecera, nombre);
    HojasSinTipo(hojas, 2, tipoHoja, mapear, cabecera, nombre);
    assert h1.dtos + [] == h1.dtos;
    assert h0.dtos + [] == h0.dtos;
    if |hojas| > 1 {
      assert LeerLibro(hojas, 1, tipoHoja, mapear, cabecera, nombre) == h1;
    }
  }
}
