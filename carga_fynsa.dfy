/** `CargaFynsaService`: the Fynsa custodian loader. It reads workbooks
    with the generic loader and types their sheets by the file name: a
    stock file has one sheet of balances, a movements file a sheet of
    purchases and sales followed by a sheet of transfers. */
module CargaFynsa {
  import opened Wrappers
  import opened Text
  import opened AbstractCarga

  /** A name cannot start with both "stock" and "mvto". */
  lemma PrefijosExcluyentes(n: string)
    ensures !(StartsWith(n, "stock") && StartsWith(n, "mvto"))
  {
    if StartsWith(n, "stock") {
      assert n[0] == 's';
    }
  }

  /** `getSheetType`: the type of sheet `indice` of the file `nombre`,
      "" for a sheet that is not loaded. */
  function GetSheetType(nombre: string, indice: nat): (tipo: string)
    ensures tipo == "S" <==> StartsWith(Lower(nombre), "stock") && indice == 0
    ensures tipo == "C" <==> StartsWith(Lower(nombre), "mvto") && indice == 0
    ensures tipo == "T" <==> StartsWith(Lower(nombre), "mvto") && indice == 1
    ensures tipo == "" || tipo == "S" || tipo == "C" || tipo == "T"
  {
    var n := Lower(nombre);
    PrefijosExcluyentes(n);
    if StartsWith(n, "stock") && indice == 0 then "S"
    else if StartsWith(n, "mvto") then
      (if indice == 0 then "C" else if indice == 1 then "T" else "")
    else ""
  }

  /** The sheet typing the generic loader receives for the file `nombre`:
      the Java method never answers null. */
  function TipoHoja(nombre: string): nat -> Option<string> {
    (i: nat) => Some(GetSheetType(nombre, i))
  }

  /** Sheet `i` read as a sheet of type `tipo`; nothing if the workbook
      has no such sheet. */
  function HojaComo<R, T>(hojas: seq<Hoja<R>>, i: nat, tipo: string,
                          mapear: (string, R, nat, string) -> Mapeo<T>, cabecera: nat, nombre: string): Lectura<T>
  {
    if i < |hojas| then LeerFilas(tipo, hojas[i].filas, cabecera + 1, mapear, nombre) else Lectura([], 0)
  }

  /** What a Fynsa file gives, stated by file kind: a stock file its first
      sheet as balances, a movements file its first sheet as purchases and
      sales followed by its second as transfers, and any other file
      nothing. */
  function LecturaFynsa<R, T>(nombre: string, hojas: seq<Hoja<R>>,
                              mapear: (string, R, nat, string) -> Mapeo<T>, cabecera: nat): Lectura<T>
  {
    var n := Lower(nombre);
    if StartsWith(n, "stock") then HojaComo(hojas, 0, "S", mapear, cabecera, nombre)
    else if StartsWith(n, "mvto") then
      var compras := HojaComo(hojas, 0, "C", mapear, cabecera, nombre);
      var traspasos := HojaComo(hojas, 1, "T", mapear, cabecera, nombre);
      Lectura(compras.dtos + traspasos.dtos, compras.errores + traspasos.errores)
    else Lectura([], 0)
  }

  /** The generic loader with the Fynsa sheet typing reads exactly what
      `LecturaFynsa` says: sheets from the third on are never read, and
      the mapper always receives the type of its sheet. */
  lemma CargaPorTipoDeArchivo<R, T>(nombre: string, hojas: seq<Hoja<R>>,
                                    mapear: (string, R, nat, string) -> Mapeo<T>, cabecera: nat)
    ensures LeerLibro(hojas, 0, TipoHoja(nombre), mapear, cabecera, nombre)
         == LecturaFynsa(nombre, hojas, mapear, cabecera)
  {
    var tipos := TipoHoja(nombre);
    forall k | 2 <= k < |hojas|
      ensures tipos(k).None? || IsBlank(tipos(k).value)
    {
      assert tipos(k).value == "";
    }
    DosHojas(hojas, tipos, mapear, cabecera, nombre);
    var h0 := HojaLeida(hojas, 0, tipos, mapear, cabecera, nombre);
    var h1 := HojaLeida(hojas, 1, tipos, mapear, cabecera, nombre);
    var l := LeerLibro(hojas, 0, tipos, mapear, cabecera, nombre);
    var n := Lower(nombre);
    if StartsWith(n, "stock") {
      PrefijosExcluyentes(n);
      assert h1 == Lectura([], 0);
      assert h0 == HojaComo(hojas, 0, "S", mapear, cabecera, nombre);
      NadaQueda(h0, l);
    } else if StartsWith(n, "mvto") {
      assert h0 == HojaComo(hojas, 0, "C", mapear, cabecera, nombre);
      assert h1 == HojaComo(hojas, 1, "T", mapear, cabecera, nombre);
    } else {
      assert h0 == Lectura([], 0) && h1 == Lectura([], 0);
      NadaQueda(h0, l);
    }
  }
}
