/** `TransaccionService` (com.serv): the validation of a manual
    transaction, the entity built from it, and the toggle of its
    `ignorarEnCosteo` flag. The entity manager is a map from ids to
    transactions (`em.find`) and a catalogue of the ids that exist. */
module TransaccionService {
  import opened Wrappers
  import opened Text
  import opened Calendar

  /** `TransaccionManualDto`: every field may be null. */
  datatype TransaccionManualDto = TransaccionManualDto(
    empresaId: Option<int>, custodioId: Option<int>, instrumentoId: Option<int>, tipoMovimientoId: Option<int>,
    cuenta: Option<string>, fecha: Option<Date>, cantidad: Option<real>, precio: Option<real>,
    glosa: Option<string>, comisiones: Option<real>, gastos: Option<real>, iva: Option<real>,
    moneda: Option<string>, folio: Option<string>)

  /** A `TransaccionEntity` as the manual path fills it; the related
      entities are represented by their ids. */
  datatype Transaccion = Transaccion(
    empresaId: int, custodioId: int, instrumentoId: int, tipoMovimientoId: int,
    cuenta: string, fecha: Date, cantidad: real, precio: real,
    glosa: Option<string>, comisiones: real, gastos: real, iva: real,
    moneda: string, folio: string, monto: real, montoClp: real,
    costeado: bool, paraRevision: bool, ignorarEnCosteo: bool)

  /** Which entity `obtenerEntidadOLanzarExcepcion` did not find. */
  datatype Entidad = Empresa | Custodio | Instrumento | TipoDeMovimiento

  /** The reasons `validarDtoTransaccionManual` rejects a DTO, in the
      order it checks them. */
  datatype Invalido =
    | SinEmpresa | SinCustodio | SinInstrumento | SinTipoMovimiento
    | CuentaVacia | SinFecha | CantidadNoPositiva | PrecioNoPositivo

  /** The exceptions the service throws. */
  datatype Falla =
    | DtoNulo                              // IllegalArgumentException, null DTO
    | DatoInvalido(motivo: Invalido)       // IllegalArgumentException from the validation
    | IdNulo                               // IllegalArgumentException, null transaction id
    | NoEncontrada(entidad: Option<Entidad>) // EntityNotFoundException (None: the transaction)

  /** The ids `em.find` resolves, per entity class. */
  datatype Catalogo = Catalogo(empresas: set<int>, custodios: set<int>, instrumentos: set<int>, tipos: set<int>)

  predicate Positivo(x: Option<real>) {
    x.Some? && x.value > 0.0
  }

  predicate NoVacia(s: Option<string>) {
    s.Some? && Trim(s.value) != []
  }

  /** Every check of `validarDtoTransaccionManual` passes. */
  predicate DtoValido(dto: TransaccionManualDto) {
    dto.empresaId.Some? && dto.custodioId.Some? && dto.instrumentoId.Some? && dto.tipoMovimientoId.Some?
    && NoVacia(dto.cuenta) && dto.fecha.Some? && Positivo(dto.cantidad) && Positivo(dto.precio)
  }

  /** `validarDtoTransaccionManual`: the first failing check, or None. */
  function ValidarDto(dto: TransaccionManualDto): (r: Option<Invalido>)
    ensures r.None? <==> DtoValido(dto)
    ensures r == Some(SinEmpresa) <==> dto.empresaId.None?
    ensures r == Some(PrecioNoPositivo) ==> !Positivo(dto.precio) && Positivo(dto.cantidad)
  {
    if dto.empresaId.None? then Some(SinEmpresa)
    else if dto.custodioId.None? then Some(SinCustodio)
    else if dto.instrumentoId.None? then Some(SinInstrumento)
    else if dto.tipoMovimientoId.None? then Some(SinTipoMovimiento)
    else if !NoVacia(dto.cuenta) then Some(CuentaVacia)
    else if dto.fecha.None? then Some(SinFecha)
    else if !Positivo(dto.cantidad) then Some(CantidadNoPositiva)
    else if !Positivo(dto.precio) then Some(PrecioNoPositivo)
    else None
  }

  /** The folio of a manual transaction: the trimmed folio, or "MANUAL"
      when it is null or blank. */
  function Folio(folio: Option<string>): (r: string)
    ensures r != [] && (r == "MANUAL" || Recortado(r))
    ensures folio.Some? && Trim(folio.value) != [] ==> r == Trim(folio.value)
    ensures folio.None? || Trim(folio.value) == [] ==> r == "MANUAL"
  {
    if folio.Some? && Trim(folio.value) != [] then Recortar(folio.value) else "MANUAL"
  }

  /** Text that begins and ends with a character `String.trim` keeps. */
  predicate Recortado(s: string) {
    s != [] ==> !IsTrimmable(s[0]) && !IsTrimmable(s[|s| - 1])
  }

  /** `String.trim`, with what it promises about its result. */
  function Recortar(s: string): (r: string)
    ensures r == Trim(s) && Recortado(r) && |r| <= |s|
  {
    Trim(s)
  }

  /** `construirTransaccionDesdeDto` on a DTO that passed validation: the
      DTO's ids, date, quantity and price; the account, glosa and currency
      trimmed; zero for a missing charge and "CLP" for a missing currency;
      a non-blank folio; a positive amount, equal in both currencies, of
      quantity times price; and no costing flag set. */
  function ConstruirTransaccion(dto: TransaccionManualDto): (t: Transaccion)
    requires DtoValido(dto)
    ensures Some(t.empresaId) == dto.empresaId && Some(t.custodioId) == dto.custodioId
      && Some(t.instrumentoId) == dto.instrumentoId && Some(t.tipoMovimientoId) == dto.tipoMovimientoId
    ensures Some(t.fecha) == dto.fecha && Some(t.cantidad) == dto.cantidad && Some(t.precio) == dto.precio
    ensures t.cuenta == Trim(dto.cuenta.value) && t.cuenta != [] && Recortado(t.cuenta)
    ensures t.glosa == (if dto.glosa.Some? then Some(Trim(dto.glosa.value)) else None)
    ensures t.glosa.Some? ==> Recortado(t.glosa.value) && |t.glosa.value| <= |dto.glosa.value|
    ensures t.comisiones == dto.comisiones.GetOr(0.0) && t.gastos == dto.gastos.GetOr(0.0) && t.iva == dto.iva.GetOr(0.0)
    ensures dto.moneda.None? ==> t.moneda == "CLP"
    ensures dto.moneda.Some? ==> t.moneda == Trim(dto.moneda.value) && Recortado(t.moneda)
    ensures t.folio == Folio(dto.folio) && t.folio != [] && (t.folio == "MANUAL" || Recortado(t.folio))
    ensures t.monto == t.montoClp == Total(t.cantidad, t.precio) && t.monto > 0.0
    ensures !t.costeado && !t.paraRevision && !t.ignorarEnCosteo
  {
    var cuenta := Recortar(dto.cuenta.value);
    var glosa := if dto.glosa.Some? then Some(Recortar(dto.glosa.value)) else None;
    var moneda := if dto.moneda.Some? then Recortar(dto.moneda.value) else "CLP";
    var folio := Folio(dto.folio);
    var total := Total(dto.cantidad.value, dto.precio.value);
    Transaccion(
      dto.empresaId.value, dto.custodioId.value, dto.instrumentoId.value, dto.tipoMovimientoId.value,
      cuenta, dto.fecha.value, dto.cantidad.value, dto.precio.value, glosa,
      dto.comisiones.GetOr(0.0), dto.gastos.GetOr(0.0), dto.iva.GetOr(0.0),
      moneda, folio, total, total,
      false, false, false)
  }

  /** `cantidad.multiply(precio)`: positive for a positive quantity and price. */
  function Total(cantidad: real, precio: real): (r: real)
    requires cantidad > 0.0 && precio > 0.0
    ensures r == cantidad * precio && r > 0.0
  {
    cantidad * precio
  }

  /** The first related entity `em.find` does not resolve, in the order
      the service looks them up. */
  function EntidadFaltante(dto: TransaccionManualDto, cat: Catalogo): (r: Option<Entidad>)
    requires DtoValido(dto)
    ensures r.None? <==> (dto.empresaId.value in cat.empresas && dto.custodioId.value in cat.custodios
                          && dto.instrumentoId.value in cat.instrumentos && dto.tipoMovimientoId.value in cat.tipos)
  {
    if dto.empresaId.value !in cat.empresas then Some(Empresa)
    else if dto.custodioId.value !in cat.custodios then Some(Custodio)
    else if dto.instrumentoId.value !in cat.instrumentos then Some(Instrumento)
    else if dto.tipoMovimientoId.value !in cat.tipos then Some(TipoDeMovimiento)
    else None
  }

  /** `crearTransaccionManual`: the transaction it persists, or the
      exception it throws. */
  function CrearTransaccionManual(dto: Option<TransaccionManualDto>, cat: Catalogo): (r: Result<Transaccion, Falla>)
    ensures dto.None? ==> r == Err(DtoNulo)
    ensures dto.Some? && !DtoValido(dto.value) ==> r.Err? && r.error.DatoInvalido?
    ensures dto.Some? && DtoValido(dto.value) && EntidadFaltante(dto.value, cat).Some? ==>
      r == Err(NoEncontrada(EntidadFaltante(dto.value, cat)))
    ensures dto.Some? && DtoValido(dto.value) && EntidadFaltante(dto.value, cat).None? ==>
      r == Ok(ConstruirTransaccion(dto.value))
  {
    if dto.None? then Err(DtoNulo)
    else match ValidarDto(dto.value)
      case Some(motivo) => Err(DatoInvalido(motivo))
      case None =>
        match EntidadFaltante(dto.value, cat)
        case Some(e) => Err(NoEncontrada(Some(e)))
        case None => Ok(ConstruirTransaccion(dto.value))
  }

  /** A manual transaction that is created carries the DTO's ids and
      date, a trimmed non-blank account, a positive amount equal in both
      currencies to quantity times price, zero defaults for the missing
      charges, "CLP" for a missing currency, a non-blank folio, and none
      of the costing flags set. */
  lemma CreadaEsCoherente(dto: TransaccionManualDto, cat: Catalogo)
    requires CrearTransaccionManual(Some(dto), cat).Ok?
    ensures var t := CrearTransaccionManual(Some(dto), cat).value;
      DtoValido(dto)
      && Some(t.empresaId) == dto.empresaId && Some(t.custodioId) == dto.custodioId
      && Some(t.instrumentoId) == dto.instrumentoId && Some(t.tipoMovimientoId) == dto.tipoMovimientoId
      && Some(t.fecha) == dto.fecha
      && t.cuenta != [] && t.cuenta == Trim(dto.cuenta.value)
      && t.monto == t.montoClp == Total(t.cantidad, t.precio) && t.monto > 0.0
      && (dto.comisiones.None? ==> t.comisiones == 0.0)
      && (dto.gastos.None? ==> t.gastos == 0.0)
      && (dto.iva.None? ==> t.iva == 0.0)
      && t.glosa == (if dto.glosa.Some? then Some(Trim(dto.glosa.value)) else None)
      && t.moneda == (if dto.moneda.Some? then Trim(dto.moneda.value) else "CLP")
      && t.folio != []
      && (dto.folio.None? || Trim(dto.folio.value) == [] ==> t.folio == "MANUAL")
      && (dto.folio.Some? && Trim(dto.folio.value) != [] ==> t.folio == Trim(dto.folio.value))
      && !t.costeado && !t.paraRevision && !t.ignorarEnCosteo
  {
    assert DtoValido(dto);
    var t := ConstruirTransaccion(dto);
    assert t.monto == Total(t.cantidad, t.precio);
  }

  /** A DTO that passes validation and whose entities all exist is
      always created. */
  lemma ValidaSeCrea(dto: TransaccionManualDto, cat: Catalogo)
    requires DtoValido(dto)
    requires dto.empresaId.value in cat.empresas && dto.custodioId.value in cat.custodios
    requires dto.instrumentoId.value in cat.instrumentos && dto.tipoMovimientoId.value in cat.tipos
    ensures CrearTransaccionManual(Some(dto), cat) == Ok(ConstruirTransaccion(dto))
  {
  }

  // ---------------------------------------------------------------------
  // The ignore-in-costing toggle
  // ---------------------------------------------------------------------

  /** `toggleIgnorarEnCosteo` on the stored transactions: the outcome and
      the store afterwards. */
  function Alternar(store: map<int, Transaccion>, id: Option<int>): (p: (Result<(), Falla>, map<int, Transaccion>))
    ensures id.None? ==> p == (Err(IdNulo), store)
    ensures id.Some? && id.value !in store ==> p == (Err(NoEncontrada(None)), store)
    ensures p.0.Ok? <==> id.Some? && id.value in store
    ensures p.1.Keys == store.Keys
  {
    if id.None? then (Err(IdNulo), store)
    else if id.value !in store then (Err(NoEncontrada(None)), store)
    else
      var t := store[id.value];
      (Ok(()), store[id.value := t.(ignorarEnCosteo := !t.ignorarEnCosteo)])
  }

  /** The toggle flips the flag of that one transaction and changes
      nothing else. */
  lemma AlternarSoloEseFlag(store: map<int, Transaccion>, id: int)
    requires id in store
    ensures var s := Alternar(store, Some(id)).1;
      s[id].ignorarEnCosteo == !store[id].ignorarEnCosteo
      && s[id] == store[id].(ignorarEnCosteo := s[id].ignorarEnCosteo)
      && forall k :: k in store && k != id ==> s[k] == store[k]
  {
  }

  /** Toggling twice restores the store, whatever the outcome. */
  lemma AlternarDosVeces(store: map<int, Transaccion>, id: Option<int>)
    ensures Alternar(Alternar(store, id).1, id).1 == store
  {
    if id.Some? && id.value in store {
      var s := Alternar(store, id).1;
      var s2 := Alternar(s, id).1;
      assert s2.Keys == store.Keys;
      forall k | k in store ensures s2[k] == store[k] {
      }
    }
  }

  /** The transactions the entity manager holds. */
  class Transacciones {
    var porId: map<int, Transaccion>

    constructor (inicial: map<int, Transaccion>)
      ensures porId == inicial
    {
      porId := inicial;
    }

    /** `toggleIgnorarEnCosteo`: flips the stored flag in place, or throws. */
    method ToggleIgnorarEnCosteo(id: Option<int>) returns (r: Result<(), Falla>)
      modifies this
      ensures (r, porId) == Alternar(old(porId), id)
    {
      if id.None? {
        return Err(IdNulo);
      }
      if id.value !in porId {
        return Err(NoEncontrada(None));
      }
      var trx := porId[id.value];
      var estadoAnterior := trx.ignorarEnCosteo;
      porId := porId[id.value := trx.(ignorarEnCosteo := !estadoAnterior)];
      r := Ok(());
    }
  }
}
