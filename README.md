# Portafolio: a verified model of the accounting core

Portafolio keeps the investment portfolios of a group of companies. It
loads the statements custodians send as spreadsheets, normalises the
loaded rows into companies, custodians, instruments and transactions,
costs every instrument with a FIFO inventory and a kardex (the running
stock ledger), and builds the reports the user interface shows. This
project models the logic at the centre of that pipeline in Dafny and
proves what it promises. Each module corresponds to one source file and
keeps that file's names.

- **Loading.**
  - `CargaTrxs` and `CargaSaldos` model the two Python loaders. They cover
    cell normalisation, the date in a file name, the choice of the latest
    file of each month, and the sheet loops that insert rows through a
    `Conexion` class.
  - `AbstractCarga`, `AbstractExcelMapper` and `CargaFynsa` model the Java
    ETL: the sheet and row loop with its counters, the cell readers, and
    the sheet-type table.
  - `RutValidator` models the Chilean RUT normal form and its mod-11
    check digit.
- **Normalising.** `EntidadCacheManager` models five memo caches in front
  of find-or-create DAOs. Each cache is a class whose map is filled in
  place, and a ghost log records every DAO call.
- **Costing.**
  - `Costeo` holds the entities and two classes: the FIFO queue of
    purchase lots, and the book of persisted records.
  - `IngresoHandler`, `EgresoHandler` and `KardexFactory` handle one
    purchase or sale. A sale consumes lots from the head of the queue,
    and a small shortfall is covered by an automatic adjustment.
  - `CostingGroupProcessor` costs one group of transactions. Once one
    fails, it and every later one are marked for revision. It then carries
    the daily balances forward.
  - `FifoCostingEngine` groups the transactions by key.
  - `CostingService` reads a group key back into its four ids.
- **Reporting and services.**
  - `SaldoMensualService`: monthly balances with five summary rows.
  - `ResumenSaldoEmpresaService`: subtotals per company.
  - `OperacionesTrxsService`: running balances.
  - `ResultadoInstrumentoService`: the result history with totals.
  - `SaldoActualService`: valuation at market prices.
  - `TransaccionService`: manual transactions and the ignore flag.
  - `AuthenticationService`: login with lockout.

Shared modules:
- `Wrappers`: `Option` stands for null and `Result` for an exception.
- `Text`: the Java and Python string operations the core uses.
- `Decimal`: `BigDecimal` and Python floats as `real`, with HALF_UP
  rounding.
- `Calendar`: dates.

Where the source mutates state, the model does too. Queues, caches,
counters and in-place list updates are classes, arrays and loops. Each
method is proved against a specification function, and the lemmas beside
that function state what the source promises. Databases, spreadsheets,
clocks and DAOs are parameters: the answers they give.

## Model

| member | source | states |
|---|---|---|
| AbstractCarga.LeerFila | portafolio-etl/src/main/java/com/etl/interfaz/AbstractCarga.java:63-78 | a missing row is skipped, a DTO is handed over and counted, a mapping error is counted; a null DTO ends the sheet and then what was handed over is all the sheet gives |
| AbstractCarga.ProcesarHoja | portafolio-etl/src/main/java/com/etl/interfaz/AbstractCarga.java:62-79 | the row loop from the row after the header hands over exactly the DTOs the sheet reading gives, in order, and counts its mapping errors |
| AbstractCarga.ProcessFile | portafolio-etl/src/main/java/com/etl/interfaz/AbstractCarga.java:40-90 | a null or missing file or an Excel lock file fails with the invalid-file message; an I/O failure fails with its message; otherwise the DTOs handed over are those of the whole workbook in order, and the result counts them and the mapping errors |
| AbstractCarga.CadaFilaUnaVez | portafolio-etl/src/main/java/com/etl/interfaz/AbstractCarga.java:62-79 | every existing row read is handed over or counted as an error, never both; with no null DTO every existing row is one of the two |
| AbstractCarga.FinDeDatosCorta | portafolio-etl/src/main/java/com/etl/interfaz/AbstractCarga.java:68-71 | the first null DTO ends the sheet: the sheet reads as if it stopped at that row |
| AbstractCarga.FinDeDatosSoloEsaHoja | portafolio-etl/src/main/java/com/etl/interfaz/AbstractCarga.java:53-79 | a null DTO ends only its own sheet: the sheets after it are still read |
| AbstractCarga.LibroPartido | portafolio-etl/src/main/java/com/etl/interfaz/AbstractCarga.java:53-80 | the load of a workbook is the load of its first sheets followed by the load of the rest |
| AbstractCarga.PrefijoDesde | portafolio-etl/src/main/java/com/etl/interfaz/AbstractCarga.java:53-80 | reading the first sheets from any starting sheet, then the rest, is reading the workbook from that starting sheet |
| AbstractCarga.HojasSinTipo | portafolio-etl/src/main/java/com/etl/interfaz/AbstractCarga.java:55-56 | sheets whose type is null or blank add no DTO and no error |
| AbstractCarga.DosHojas | portafolio-etl/src/main/java/com/etl/interfaz/AbstractCarga.java:53-56 | when only the first two sheets have a type, the load is those two sheets, whatever else the workbook holds |
| AbstractExcelMapper.GetString | portafolio-etl/src/main/java/com/etl/loader/AbstractExcelMapper.java:13-18 | null exactly for no cell; otherwise the formatted text, never longer, starting and ending with a character above U+0020, and empty exactly when the formatted text holds only characters up to U+0020 |
| AbstractExcelMapper.TrimFijo | portafolio-etl/src/main/java/com/etl/loader/AbstractExcelMapper.java:17 | text that neither starts nor ends with a character up to U+0020 is returned unchanged by trim |
| AbstractExcelMapper.GetStringIdempotente | portafolio-etl/src/main/java/com/etl/loader/AbstractExcelMapper.java:13-18 | reading the text a cell gave once more gives the same text |
| AbstractExcelMapper.Punto | portafolio-etl/src/main/java/com/etl/loader/AbstractExcelMapper.java:29 | the index of the first point, or the length when there is none |
| AbstractExcelMapper.Normalizar | portafolio-etl/src/main/java/com/etl/loader/AbstractExcelMapper.java:28 | the normalised text has no comma and keeps exactly the characters other than point and comma that the cell text has |
| AbstractExcelMapper.GetBigDecimal | portafolio-etl/src/main/java/com/etl/loader/AbstractExcelMapper.java:20-36 | null for no cell, a blank cell and any type but numeric and string; the value of a numeric cell; for a string cell, a value exactly when the normalised text matches the decimal pattern |
| AbstractExcelMapper.SimbolosDecimales | portafolio-etl/src/main/java/com/etl/loader/AbstractExcelMapper.java:29 | text that matches the decimal pattern holds only digits, signs and points |
| AbstractExcelMapper.TextoNoNumerico | portafolio-etl/src/main/java/com/etl/loader/AbstractExcelMapper.java:27-35 | text holding any character other than a digit, a sign, a point or a comma reads as null |
| AbstractExcelMapper.LecturaChilena | portafolio-etl/src/main/java/com/etl/loader/AbstractExcelMapper.java:27-31 | digits with thousands points, a decimal comma and a non-empty run of decimals read as the number they write |
| AbstractExcelMapper.LeerDecimal | portafolio-etl/src/main/java/com/etl/loader/AbstractExcelMapper.java:29-30 | digits, a point and a non-empty run of digits match the pattern and read as the number they write |
| AbstractExcelMapper.SoloDigitos | portafolio-etl/src/main/java/com/etl/loader/AbstractExcelMapper.java:28 | removing the points of digits and points leaves only digits |
| AbstractExcelMapper.PuntoTras | portafolio-etl/src/main/java/com/etl/loader/AbstractExcelMapper.java:28-29 | the first point of digits, a point and more text sits right after the digits |
| AbstractExcelMapper.LeerAnio | portafolio-etl/src/main/java/com/etl/loader/AbstractExcelMapper.java:60-62 | a year that parses lies between 1 and the largest year a LocalDate holds |
| AbstractExcelMapper.LeerDosDigitos | portafolio-etl/src/main/java/com/etl/loader/AbstractExcelMapper.java:60-62 | a month or day field that parses lies between 0 and 99 |
| AbstractExcelMapper.Resolver | portafolio-etl/src/main/java/com/etl/loader/AbstractExcelMapper.java:69 | resolves exactly when the month is 1..12 and the day 1..31; the date keeps year and month, is the given date when that exists, and otherwise the month's last day |
| AbstractExcelMapper.Combinar | portafolio-etl/src/main/java/com/etl/loader/AbstractExcelMapper.java:69 | a date comes only from three parsed fields, is a real date and keeps the parsed year |
| AbstractExcelMapper.LeerDiaMesAnio | portafolio-etl/src/main/java/com/etl/loader/AbstractExcelMapper.java:61-62 | a date read as day, month, year has the separator in third place and is a real date with a year LocalDate holds |
| AbstractExcelMapper.LeerAnioMesDia | portafolio-etl/src/main/java/com/etl/loader/AbstractExcelMapper.java:60 | a date read in the ISO pattern is a real date with a year LocalDate holds |
| AbstractExcelMapper.Parsear | portafolio-etl/src/main/java/com/etl/loader/AbstractExcelMapper.java:66-73 | whatever pattern parses, the result is a real date with a year LocalDate holds |
| AbstractExcelMapper.PrimeraFechaGana | portafolio-etl/src/main/java/com/etl/loader/AbstractExcelMapper.java:66-76 | the result is what the first pattern that parses gives, every earlier pattern having failed; none when no pattern parses |
| AbstractExcelMapper.PrimeraFechaPaso | portafolio-etl/src/main/java/com/etl/loader/AbstractExcelMapper.java:66-73 | a pattern that parses gives the result; one that fails leaves it to the later patterns |
| AbstractExcelMapper.GetLocalDate | portafolio-etl/src/main/java/com/etl/loader/AbstractExcelMapper.java:38-77 | the loop over the patterns gives the date a cell reads as: its own date when it is date-formatted, null for blank text, otherwise the first pattern that parses |
| AbstractExcelMapper.LeerFechaValida | portafolio-etl/src/main/java/com/etl/loader/AbstractExcelMapper.java:52-76 | a date read from text is a real calendar date |
| AbstractExcelMapper.FormatosExcluyentes | portafolio-etl/src/main/java/com/etl/loader/AbstractExcelMapper.java:59-63 | no text parses under two different patterns, so their order does not change the result |
| AbstractExcelMapper.DigitoTercero | portafolio-etl/src/main/java/com/etl/loader/AbstractExcelMapper.java:60 | text the ISO pattern parses has a digit in third place |
| AbstractExcelMapper.LeerFechaTexto | portafolio-etl/src/main/java/com/etl/loader/AbstractExcelMapper.java:52-76 | a text cell whose trimmed text is not blank is read through the patterns |
| AbstractExcelMapper.PrimeraFechaUnica | portafolio-etl/src/main/java/com/etl/loader/AbstractExcelMapper.java:66-73 | text a pattern accepts is read with that pattern |
| AbstractExcelMapper.LeerFechaFormato | portafolio-etl/src/main/java/com/etl/loader/AbstractExcelMapper.java:38-77 | a text cell is read as the date of the pattern that accepts its trimmed text |
| AbstractExcelMapper.Escribir | portafolio-etl/src/main/java/com/etl/loader/AbstractExcelMapper.java:59-63 | a date with a four-digit year is written in ten characters |
| AbstractExcelMapper.AnioEscrito | portafolio-etl/src/main/java/com/etl/loader/AbstractExcelMapper.java:60-62 | a four-digit year reads back as itself |
| AbstractExcelMapper.DosDigitosEscritos | portafolio-etl/src/main/java/com/etl/loader/AbstractExcelMapper.java:60-62 | a two-digit month or day reads back as itself |
| AbstractExcelMapper.EscribirParsear | portafolio-etl/src/main/java/com/etl/loader/AbstractExcelMapper.java:59-73 | every pattern reads back the date it writes |
| AbstractExcelMapper.GetLocalDateEscrita | portafolio-etl/src/main/java/com/etl/loader/AbstractExcelMapper.java:38-77 | a text cell holding a date written in any of the patterns reads as that date |
| AbstractExcelMapper.DiaInexistente | portafolio-etl/src/main/java/com/etl/loader/AbstractExcelMapper.java:61 | 31/02/2023 reads as 28 February 2023, the month's last day |
| AbstractExcelMapper.ShouldSkipRow | portafolio-etl/src/main/java/com/etl/loader/AbstractExcelMapper.java:85-89 | skipped exactly when the first cell is missing, blank, or its formatted text holds only characters up to U+0020 |
| CargaFynsa.PrefijosExcluyentes | portafolio-etl/src/main/java/com/etl/loader/CargaFynsaService.java:32-33 | no file name starts with both "stock" and "mvto", so the two kinds of file never overlap |
| CargaFynsa.GetSheetType | portafolio-etl/src/main/java/com/etl/loader/CargaFynsaService.java:30-38 | "S" exactly for the first sheet of a stock file, "C" exactly for the first and "T" exactly for the second sheet of a movements file, "" otherwise; the file name is compared in lower case |
| CargaFynsa.CargaPorTipoDeArchivo | portafolio-etl/src/main/java/com/etl/loader/CargaFynsaService.java:19-38 | the generic loader with this sheet typing reads a stock file's first sheet as balances, a movements file's first sheet as purchases and sales and then its second as transfers, and any other file as nothing |
| CargaSaldos.PrefixIgnoresCase | portafolio-model/src/main/resources/Scripts/carga_saldos.py:27 | any casing of "stock" followed by a lower-case Excel extension selects the file |
| CargaSaldos.UpperExtensionRejected | portafolio-model/src/main/resources/Scripts/carga_saldos.py:27 | the extension test is case-sensitive: an upper-case extension is never selected |
| CargaSaldos.SinFechaInversion | portafolio-model/src/main/resources/Scripts/carga_saldos.py:30-31 | FECHA_INVERSION is gone and every other column is kept |
| CargaSaldos.Proyectar | portafolio-model/src/main/resources/Scripts/carga_saldos.py:32 | keeps exactly the allow-listed columns the frame has, never more than the allow-list |
| CargaSaldos.ProyectarOrdered | portafolio-model/src/main/resources/Scripts/carga_saldos.py:32 | the projected columns follow the allow-list order |
| CargaSaldos.ProyectarCongruent | portafolio-model/src/main/resources/Scripts/carga_saldos.py:32 | the projection depends only on which allow-listed columns the frame has |
| CargaSaldos.SoltarFechaInversion | portafolio-model/src/main/resources/Scripts/carga_saldos.py:30-31 | the rows are kept, FECHA_INVERSION is gone and every other column is kept |
| CargaSaldos.Proyectado | portafolio-model/src/main/resources/Scripts/carga_saldos.py:30-32 | the rows are kept and the columns are exactly the allow-listed ones the workbook has |
| CargaSaldos.DropRedundant | portafolio-model/src/main/resources/Scripts/carga_saldos.py:30-32 | dropping FECHA_INVERSION before the projection changes nothing, since it is not allow-listed |
| CargaSaldos.LeerArchivos | portafolio-model/src/main/resources/Scripts/carga_saldos.py:25-33 | the directory loop gives the projected frames of the selected workbooks in directory order, or fails once a read fails |
| CargaSaldos.FramesSiguiente | portafolio-model/src/main/resources/Scripts/carga_saldos.py:26-33 | a file not selected changes nothing, a failed read aborts the run, and a read workbook is appended after the drop and the projection |
| CargaSaldos.FramesAbort | portafolio-model/src/main/resources/Scripts/carga_saldos.py:26-33 | once a read has failed the later files cannot bring the run back |
| CargaSaldos.ConcatCount | portafolio-model/src/main/resources/Scripts/carga_saldos.py:36 | the combined frame has one row per row of the selected workbooks |
| CargaSaldos.LimpiarForma | portafolio-model/src/main/resources/Scripts/carga_saldos.py:80-89 | a missing value is NULL; a numeric column gives only numbers or NULL; any other column gives NULL, stripped text or the raw value, and stripped text has no surrounding blanks |
| CargaSaldos.ValoresDe | portafolio-model/src/main/resources/Scripts/carga_saldos.py:78-89 | one value per allow-listed column, in the allow-list order |
| CargaSaldos.ConstruirValores | portafolio-model/src/main/resources/Scripts/carga_saldos.py:78-89 | the column loop builds exactly the cleaned values of the row, column by column |
| CargaSaldos.CommaThousands | portafolio-model/src/main/resources/Scripts/carga_saldos.py:85 | a numeric text with commas between thousands and a point before the decimals is stored as the number it writes |
| CargaSaldos.UnparseableIsNull | portafolio-model/src/main/resources/Scripts/carga_saldos.py:84-87 | in a numeric column, every text whose float() reading fails once its commas are removed is stored as NULL, not as 0 |
| CargaSaldos.NoDisponibleEsNull | portafolio-model/src/main/resources/Scripts/carga_saldos.py:84-87 | N/A is such a text: float() rejects it, so N/A in PRECIO is stored as NULL |
| CargaSaldos.ValoresIgnoreOtherColumns | portafolio-model/src/main/resources/Scripts/carga_saldos.py:79-89 | a row's values depend only on its allow-listed columns |
| CargaSaldos.Conexion.constructor | portafolio-model/src/main/resources/Scripts/carga_saldos.py:39 | a fresh connection has inserted nothing and committed nothing, and keeps the given server answer |
| CargaSaldos.Conexion.Insert | portafolio-model/src/main/resources/Scripts/carga_saldos.py:90 | the INSERT succeeds exactly when the server accepts the row; then the row is added at the end, otherwise nothing is inserted; the commit flag is unchanged either way |
| CargaSaldos.Conexion.Commit | portafolio-model/src/main/resources/Scripts/carga_saldos.py:92 | the inserted rows are kept and committed |
| CargaSaldos.Conexion.Close | portafolio-model/src/main/resources/Scripts/carga_saldos.py:94-95 | closing an uncommitted connection rolls its rows back; a committed one keeps them |
| CargaSaldos.Insertadas | portafolio-model/src/main/resources/Scripts/carga_saldos.py:77-90 | one value row per row of the combined frame |
| CargaSaldos.PrimerRechazo | portafolio-model/src/main/resources/Scripts/carga_saldos.py:77-90 | the number of rows the server accepts before it first refuses one: all rows before it are accepted, and the row at it, if any, is refused |
| CargaSaldos.InsertarFilas | portafolio-model/src/main/resources/Scripts/carga_saldos.py:77-90 | one INSERT per row of the combined frame, in row order, with that row's cleaned values, up to the first refused row; success exactly when no row is refused |
| CargaSaldos.CargaSaldos | portafolio-model/src/main/resources/Scripts/carga_saldos.py:24-95 | no connection exactly when a selected workbook cannot be read; otherwise the committed flag holds exactly when the server accepts every cleaned row, and then every row of the selected workbooks is kept in order; a refusal leaves nothing in the table; when the server accepts everything the load is committed |
| CargaTrxs.ParseUnsigned | resources/Scripts/carga_trxs.py:35 | an unsigned decimal literal reads as a value that is not negative |
| CargaTrxs.ParseFloatDecimal | resources/Scripts/carga_trxs.py:35 | a decimal literal with an integer part and a fraction reads as the number it writes |
| CargaTrxs.ParseFloatInteger | resources/Scripts/carga_trxs.py:35 | a run of digits reads as the integer it writes |
| CargaTrxs.StripDigits | resources/Scripts/carga_trxs.py:35 | strip leaves alone text that begins and ends with a digit or a point |
| CargaTrxs.ParseFloat | resources/Scripts/carga_trxs.py:35 | Python `float()` on text: a result only for text that is not blank once stripped; a value that is not positive when the stripped text starts with '-', one that is not negative otherwise |
| CargaTrxs.ParseFloatStrip | resources/Scripts/carga_trxs.py:35 | surrounding whitespace does not change what `float()` reads |
| CargaTrxs.ParseFloatNegativo | resources/Scripts/carga_trxs.py:35 | a leading '-' negates the value the rest reads as, and fails exactly where the rest fails |
| CargaTrxs.ParseSignedNegativo | resources/Scripts/carga_trxs.py:35 | after the sign is taken off, a literal starting with a digit reads as its unsigned value, negated after a '-' |
| CargaTrxs.ParseMantissa | resources/Scripts/carga_trxs.py:35 | a mantissa of digits with at most one point reads as a value that is not negative |
| CargaTrxs.PrimeraE | resources/Scripts/carga_trxs.py:35 | the mantissa ends at the first 'e' or 'E': no earlier character is one |
| CargaTrxs.Escalar | resources/Scripts/carga_trxs.py:35 | scaling a value that is not negative by a power of ten, positive or negative, keeps it not negative |
| CargaTrxs.ParseFloatExponente | resources/Scripts/carga_trxs.py:35 | digits, an 'e' or 'E' and an exponent read as the digits' value times ten to that exponent |
| CargaTrxs.ExponenteSinSigno | resources/Scripts/carga_trxs.py:35 | an unsigned exponent is the number its digits write |
| CargaTrxs.ExponenteConSigno | resources/Scripts/carga_trxs.py:35 | a signed exponent is the number its digits write, negated after '-' |
| CargaTrxs.ParseFloatMil | resources/Scripts/carga_trxs.py:35 | "1E3" reads as 1000 |
| CargaTrxs.ParseFloatCienMilesima | resources/Scripts/carga_trxs.py:35 | "1e-05", the form `str` gives a small float, reads as 0.00001 |
| CargaTrxs.SinExponente | resources/Scripts/carga_trxs.py:35 | text without 'e' or 'E' is all mantissa |
| CargaTrxs.LimpiarValor | resources/Scripts/carga_trxs.py:30-43 | an empty cell gives 0 in a numeric column and None elsewhere; otherwise a numeric column gives the coerced number, a date column the date the cell converts to or None when it does not convert, and a text column the stripped text of a text cell, non-empty, or any other value as it is (with the corrected number coercion) |
| CargaTrxs.StripIdempotent | resources/Scripts/carga_trxs.py:43 | stripping twice changes nothing more |
| CargaTrxs.ChileanFormat | resources/Scripts/carga_trxs.py:35 | text with points between thousands and a comma before the decimals is stored as the number it writes |
| CargaTrxs.NumeroKeepsNumbers | resources/Scripts/carga_trxs.py:33-35 | a cell pandas read as a number keeps its value in a numeric column |
| CargaTrxs.CoerceNumber | resources/Scripts/carga_trxs.py:33-35 | corrected: a cell pandas read as a number keeps its value, a date cell gives 0, and text gives the value of its Chilean-format reading or 0 where `float()` fails |
| CargaTrxs.CoerceNumberAsWritten | resources/Scripts/carga_trxs.py:33-35 | as written: text is coerced like the corrected version, a date cell gives 0, but a number cell is coerced as if it were the text `str` renders for it |
| CargaTrxs.CoerceNumberAsWrittenDropsPoint | resources/Scripts/carga_trxs.py:35 | as written, a float cell whose text is digits, a point and digits loses its decimal point |
| CargaTrxs.CoerceNumberAsWrittenFloat | resources/Scripts/carga_trxs.py:35 | as written, the float 10.5 is stored as 105 |
| CargaTrxs.DigitRunEnd | resources/Scripts/carga_trxs.py:47 | the end of the run of digits that starts at a position: every character before it is a digit and the one at it is not |
| CargaTrxs.MatchAt | resources/Scripts/carga_trxs.py:47 | a match at a position captures exactly eight ASCII digits |
| CargaTrxs.SearchFrom | resources/Scripts/carga_trxs.py:47 | no match exactly when the pattern matches at no position; a match captures eight ASCII digits |
| CargaTrxs.SearchLeftmost | resources/Scripts/carga_trxs.py:47 | the search returns the group of the leftmost position where the pattern matches |
| CargaTrxs.StrptimeYmd | resources/Scripts/carga_trxs.py:49 | a date strptime accepts is a real calendar date with a year from 1 to 9999 |
| CargaTrxs.ExtraerFechaArchivo | resources/Scripts/carga_trxs.py:46-50 | as intended, a date extracted from a name is a real calendar date, and a name with an impossible date gives none |
| CargaTrxs.ExtraerFechaArchivoAsWritten | resources/Scripts/carga_trxs.py:46-50 | as written: no date exactly when the pattern matches nowhere; a returned date is a real calendar date; ValueError exactly when the eight matched digits are not a date |
| CargaTrxs.ExtraerFechaCorrects | resources/Scripts/carga_trxs.py:46-50 | the corrected extraction agrees with the code as written wherever that returns, and gives none where it raises |
| CargaTrxs.FileNameMatches | resources/Scripts/carga_trxs.py:47 | the pattern finds the eight date digits of a custodian file name |
| CargaTrxs.StrptimeYmdRoundTrip | resources/Scripts/carga_trxs.py:49 | strptime reads back the date its eight digits write, and fails exactly when that date does not exist or has year 0 |
| CargaTrxs.ExtraerFechaRoundTrip | resources/Scripts/carga_trxs.py:46-50 | the date of a well-formed custodian file name is extracted exactly |
| CargaTrxs.ExtraerFechaImpossibleDate | resources/Scripts/carga_trxs.py:46-50 | as written, a well-formed name with an impossible date raises ValueError; corrected, it gives no date |
| CargaTrxs.ExtraerFechaFebruary30 | resources/Scripts/carga_trxs.py:46-50 | as written, mvtos_1_20240230_1.xlsx raises ValueError, which nothing catches |
| CargaTrxs.UpperCasePrefixNeverMatches | resources/Scripts/carga_trxs.py:47 | the pattern is case-sensitive: a name without a lower-case m never yields a date |
| CargaTrxs.Listing | resources/Scripts/carga_trxs.py:54-56 | one entry per file, in directory order, each with the date its name gives (with the corrected date extraction) |
| CargaTrxs.EligibleForma | resources/Scripts/carga_trxs.py:55 | the name test ignores case, and a name that passes it is at least ten characters long |
| CargaTrxs.Items | resources/Scripts/carga_trxs.py:105 | the chosen file of each month, in the order the months were first seen |
| CargaTrxs.SeleccionarArchivos | resources/Scripts/carga_trxs.py:53-60 | the selection loop gives the selection of the directory listing (with the corrected date extraction) |
| CargaTrxs.OfferSpec | resources/Scripts/carga_trxs.py:57-60 | one iteration keeps the dict well formed; a name without a date changes nothing; a dated name leaves its month with a choice no earlier than both it and the previous choice, adds no other month, and leaves every other month's choice as it was |
| CargaTrxs.SelectLatest | resources/Scripts/carga_trxs.py:53-60 | the dict the loop builds lists each month once, in the order of its first file, each with a choice |
| CargaTrxs.SelectFromWellFormed | resources/Scripts/carga_trxs.py:53-60 | every month is listed once, in the order of its first file, and has a choice |
| CargaTrxs.SelectFromSound | resources/Scripts/carga_trxs.py:53-60 | every chosen entry is a listed file dated in its own month |
| CargaTrxs.SelectFromMaximal | resources/Scripts/carga_trxs.py:53-60 | every month with a dated file has a choice, and no file of that month is later than the choice |
| CargaTrxs.SelectFromFirstOfEqual | resources/Scripts/carga_trxs.py:59 | of several files with a month's latest date, the one listed first is chosen, since only a strictly later date replaces a choice |
| CargaTrxs.SelectLatestSpec | resources/Scripts/carga_trxs.py:53-60 | the selection, stated on the directory listing: one choice per month, each a listed file dated in that month, none earlier than another file of the month, the first of equal dates |
| CargaTrxs.RowValues | resources/Scripts/carga_trxs.py:129-133 | one value per allow-listed column of the sheet |
| CargaTrxs.RowValuesShape | resources/Scripts/carga_trxs.py:129-133 | every inserted row has its converted date first and a number in every numeric column |
| CargaTrxs.SheetRows | resources/Scripts/carga_trxs.py:121-134 | never more inserted rows than rows read |
| CargaTrxs.Conexion.constructor | resources/Scripts/carga_trxs.py:63 | a fresh connection has inserted nothing into either table and committed nothing |
| CargaTrxs.Conexion.Insert | resources/Scripts/carga_trxs.py:134 | the statement succeeds exactly when the database accepts the row; then the row is added at the end of the sheet's own table, otherwise nothing is inserted; the other table and the commit flag are unchanged either way |
| CargaTrxs.Conexion.Commit | resources/Scripts/carga_trxs.py:163 | both tables are kept and committed |
| CargaTrxs.CargarHoja | resources/Scripts/carga_trxs.py:115-161 | a sheet appends to its own table its cleaned rows whose FECHA converts, in sheet order, up to the first one the database refuses, and leaves the other table alone; a missing sheet or a missing FECHA column adds nothing; the error ends only that sheet |
| CargaTrxs.CargarFilas | resources/Scripts/carga_trxs.py:146-159 | the row loop of a sheet with a FECHA column inserts, in sheet order, the cleaned values of the rows whose FECHA converts, stopping at the first INSERT that raises; it writes into that sheet's table only |
| CargaTrxs.FilaAceptada | resources/Scripts/carga_trxs.py:129-134 | while every earlier row was inserted, a row without a date changes nothing and a dated row is inserted exactly when the database accepts it |
| CargaTrxs.AceptadasPrefijo | resources/Scripts/carga_trxs.py:115-136 | the rows a sheet keeps after an error are a prefix of its dated rows, every one of them accepted, and the first row left out is the one the database refused |
| CargaTrxs.AceptadasNext | resources/Scripts/carga_trxs.py:129-134 | after an unbroken run of accepted rows, one more row is kept exactly when it is accepted |
| CargaTrxs.AceptadasCorta | resources/Scripts/carga_trxs.py:134-136 | once a row is refused, no later row of the sheet is inserted |
| CargaTrxs.AceptadasTodas | resources/Scripts/carga_trxs.py:129-134 | when the database accepts every row, the whole dated sheet is loaded |
| CargaTrxs.SheetRowsPrefix | resources/Scripts/carga_trxs.py:121-134 | the rows inserted from the first i rows of a sheet begin those inserted from the first n, for i <= n |
| CargaTrxs.SheetRowsNext | resources/Scripts/carga_trxs.py:121-134 | one more row of the sheet adds its values exactly when its FECHA converts |
| CargaTrxs.CargarSeleccion | resources/Scripts/carga_trxs.py:105-161 | both sheets of each chosen file are loaded in month order, an unreadable file being skipped and an error in one sheet leaving the other sheet and later files to load |
| CargaTrxs.LoadedRowsNext | resources/Scripts/carga_trxs.py:105-161 | one more chosen file adds what its two sheets contribute, or nothing when it cannot be read |
| CargaTrxs.CargaTrxs | resources/Scripts/carga_trxs.py:53-166 | the latest file of each month is chosen, both of its sheets are loaded into their tables in month order, and the run is committed (with the corrected number coercion and date extraction) |
| CargaTrxs.SheetRowsCount | resources/Scripts/carga_trxs.py:121-134 | a sheet contributes exactly as many rows as it has rows whose FECHA converts |
| CargaTrxs.SheetRowsStep | resources/Scripts/carga_trxs.py:121-134 | a row whose FECHA converts adds one inserted row, any other adds none |
| CargaTrxs.DatedStep | resources/Scripts/carga_trxs.py:121-122 | the converting rows among the first n are those among the first n - 1, plus row n - 1 when its FECHA converts |
| AuthenticationService.VerificarBloqueo | portafolio-service/src/main/java/com/serv/service/AuthenticationService.java:133-147 | the account counts as locked exactly when its record holds a lock that has not been reached; a record whose lock lies in the past is removed and every other record is kept |
| AuthenticationService.Autenticacion | portafolio-service/src/main/java/com/serv/service/AuthenticationService.java:46-101 | a missing or blank user name fails with invalid credentials and leaves the records untouched; a successful login never leaves a record for the normalised user (failures are counted with the corrected count) |
| AuthenticationService.AuthenticationService.constructor | portafolio-service/src/main/java/com/serv/service/AuthenticationService.java:30-37 | the service starts with no login records and with the configured maximum of attempts and lock duration |
| AuthenticationService.AuthenticationService.IsAccountLocked | portafolio-service/src/main/java/com/serv/service/AuthenticationService.java:133-147 | the answer and the records after the call are those of the lock check, and a lock is still only on a record that reached the maximum |
| AuthenticationService.AuthenticationService.RecordFailedAttemptFor | portafolio-service/src/main/java/com/serv/service/AuthenticationService.java:152-160 | every failure adds one attempt, the first one included (the corrected count), and a lock of the configured duration starts once the maximum is reached |
| AuthenticationService.AuthenticationService.Autenticar | portafolio-service/src/main/java/com/serv/service/AuthenticationService.java:46-101 | the result and the records after the call are those of the login function on the records before it, and a lock is only ever on a record that reached the maximum (failures are counted with the corrected count) |
| AuthenticationService.PasswordVacioNoRegistra | portafolio-service/src/main/java/com/serv/service/AuthenticationService.java:53-56 | for any user name, a missing password or one that trim() empties fails with invalid credentials and leaves the records untouched |
| AuthenticationService.PasswordEnBlanco | portafolio-service/src/main/java/com/serv/service/AuthenticationService.java:53-56 | a password of blanks only is such a password |
| AuthenticationService.BloqueadaAntesDelPassword | portafolio-service/src/main/java/com/serv/service/AuthenticationService.java:60-64 | a locked account is refused with the locked message before the query and the password check, and its records are unchanged |
| AuthenticationService.UsuarioNormalizado | portafolio-service/src/main/java/com/serv/service/AuthenticationService.java:58 | two user names with the same trimmed, lower-case form give the same result and the same records |
| AuthenticationService.ClaveConEspacio | portafolio-service/src/main/java/com/serv/service/AuthenticationService.java:58 | a leading blank does not change the trimmed user name |
| AuthenticationService.ClaveEnMayusculas | portafolio-service/src/main/java/com/serv/service/AuthenticationService.java:58 | upper-casing a user name does not change its normalised form |
| AuthenticationService.UpperTrim | portafolio-service/src/main/java/com/serv/service/AuthenticationService.java:58 | trimming commutes with upper-casing |
| AuthenticationService.ExitoBorraRegistro | portafolio-service/src/main/java/com/serv/service/AuthenticationService.java:79-83 | a successful login removes exactly the normalised user's record |
| AuthenticationService.ExitoBorraUsuario | portafolio-service/src/main/java/com/serv/service/AuthenticationService.java:79-83 | once past the input checks, a successful login leaves the failure records of every other user as they were and drops the user's own |
| AuthenticationService.AutenticarUsuario | portafolio-service/src/main/java/com/serv/service/AuthenticationService.java:58-101 | past the input checks, a successful login never leaves a failure record for the user (failures are counted with the corrected count) |
| AuthenticationService.AuthenticationService.AutenticarNormalizado | portafolio-service/src/main/java/com/serv/service/AuthenticationService.java:58-101 | the lock check, user lookup and password check update the failure records and give the result exactly as the authentication rule does for the normalised user, and keep the records well formed (failures are counted with the corrected count) |
| AuthenticationService.PasswordErroneoRegistra | portafolio-service/src/main/java/com/serv/service/AuthenticationService.java:84-89 | a wrong password on an account that is not locked fails with invalid credentials and records one failure, after dropping an expired lock (the corrected count) |
| AuthenticationService.BloqueoDura | portafolio-service/src/main/java/com/serv/service/AuthenticationService.java:178-193 | the failure that reaches the maximum adds one attempt and locks the account strictly before the lock time, expires it strictly after, and neither at the lock time itself |
| AuthenticationService.TrasFallosComoEscrito | portafolio-service/src/main/java/com/serv/service/AuthenticationService.java:152-160 | as written, after k failures from no record the record counts k - 1, and the account is locked exactly at failure max + 1 |
| AuthenticationService.MaxFallosNoBloquean | portafolio-service/src/main/java/com/serv/service/AuthenticationService.java:152-160 | as written, the account is still open after max failures |
| AuthenticationService.TrasFallosCorregidoBloquea | portafolio-service/src/main/java/com/serv/service/AuthenticationService.java:152-160 | with the first failure counted, after k failures the record counts k, and the account is locked exactly from failure max on |
| AuthenticationService.RecordFailedAttempt | portafolio-service/src/main/java/com/serv/service/AuthenticationService.java:178-185 | one more attempt at the current time; a record locked only after reaching the maximum stays so; the failure that reaches the maximum locks the account now exactly when the duration is positive; below the maximum the lock is kept as it was |
| AuthenticationService.BloqueoExcluyente | portafolio-service/src/main/java/com/serv/service/AuthenticationService.java:187-193 | a lock is never both running and expired; a record without a lock, or whose lock ends right now, is neither |
| AuthenticationService.RegistrarFallo | portafolio-service/src/main/java/com/serv/service/AuthenticationService.java:152-160 | as written, the user gains a record and every other record is kept; a user without a record gets zero attempts and no lock, one with a record gets one more attempt |
| AuthenticationService.RegistrarFalloCorregido | portafolio-service/src/main/java/com/serv/service/AuthenticationService.java:152-160 | corrected, the user gains a record and every other record is kept; the user's attempts go up by one from zero or from the record, and reaching the maximum with a positive duration locks the account |
| AuthenticationService.TrasFallos | portafolio-service/src/main/java/com/serv/service/AuthenticationService.java:152-160 | as written, failures from no record leave records for that user alone, and none after no failure |
| AuthenticationService.TrasFallosCorregido | portafolio-service/src/main/java/com/serv/service/AuthenticationService.java:152-160 | corrected, failures from no record leave records for that user alone, and none after no failure |
| Costeo.Disponible | portafolio-costing/src/main/java/com/app/engine/IngresoDisponible.java:13-16 | a new lot refers to its kardex and starts with the kardex's available quantity |
| Costeo.SumAppend | portafolio-costing/src/main/java/com/app/engine/EgresoHandler.java:37-39 | appending a lot adds its quantity to the queue's quantity and its cost to the queue's value |
| Costeo.ColaFifo.constructor | portafolio-costing/src/main/java/com/app/engine/CostingGroupProcessor.java:37 | the processor's FIFO queue starts empty |
| Costeo.ColaFifo.Add | portafolio-costing/src/main/java/com/app/engine/IngresoHandler.java:22 | the lot joins the tail of the queue and the queued lots stay as they were |
| Costeo.ColaFifo.SetHeadDisponible | portafolio-costing/src/main/java/com/app/engine/EgresoHandler.java:58-63 | only the head lot's available quantity changes |
| Costeo.ColaFifo.Poll | portafolio-costing/src/main/java/com/app/engine/EgresoHandler.java:78-80 | the head lot leaves the queue and the others stay in order |
| Costeo.Libro.constructor | portafolio-costing/src/main/java/com/app/engine/CostingGroupProcessor.java:40-52 | nothing has been persisted yet |
| Costeo.Libro.PersistKardex | portafolio-costing/src/main/java/com/app/engine/IngresoHandler.java:21 | one more kardex at the end of the persisted kardex, the other records unchanged |
| Costeo.Libro.PersistDetalle | portafolio-costing/src/main/java/com/app/engine/EgresoHandler.java:96 | one more costing detail at the end, the other records unchanged |
| Costeo.Libro.PersistAjuste | portafolio-costing/src/main/java/com/app/engine/EgresoHandler.java:121 | one more adjustment transaction at the end, the other records unchanged |
| IngresoHandler.Ingresar | portafolio-costing/src/main/java/com/app/engine/IngresoHandler.java:16-25 | a null price throws before anything changes; any other ingreso succeeds |
| IngresoHandler.IngresarEffect | portafolio-costing/src/main/java/com/app/engine/IngresoHandler.java:16-25 | the balance grows by the quantity and by quantity times price, exactly one lot holding the whole quantity at the price joins the tail, the queued lots are kept, and its kardex is persisted |
| IngresoHandler.IngresarCuadra | portafolio-costing/src/main/java/com/app/engine/IngresoHandler.java:16-25 | an ingreso keeps the queue accounting for the balance |
| IngresoHandler.Handle | portafolio-costing/src/main/java/com/app/engine/IngresoHandler.java:16-25 | the queue, the persisted records and the returned balance are those of the ingreso on the state before the call, or the exception with nothing changed |
| EgresoHandler.Min | portafolio-costing/src/main/java/com/app/engine/EgresoHandler.java:55 | the smaller of the pending quantity and the lot's available quantity, the pending one on a tie |
| EgresoHandler.SumCons | portafolio-costing/src/main/java/com/app/engine/EgresoHandler.java:49-81 | a turn in front of others adds its quantity and its cost to theirs |
| EgresoHandler.MontoResta | portafolio-costing/src/main/java/com/app/engine/EgresoHandler.java:57 | the cost of a lot splits into the cost of the part taken and the cost of the part left |
| EgresoHandler.SiguienteSumas | portafolio-costing/src/main/java/com/app/engine/EgresoHandler.java:55-80 | taking a quantity from the head lot moves exactly that quantity and its cost out of the queue |
| EgresoHandler.ConsumirFifoCantidad | portafolio-costing/src/main/java/com/app/engine/EgresoHandler.java:49-81 | in quantity, what the queue held is what was taken plus what is left; what was taken is the sale less what is still pending, which is never negative; something still pending means the queue ran empty |
| EgresoHandler.ConsumirFifoValor | portafolio-costing/src/main/java/com/app/engine/EgresoHandler.java:49-81 | in cost, what the queue held is the cost of what was taken plus that of what is left |
| EgresoHandler.ConsumirFifoConserva | portafolio-costing/src/main/java/com/app/engine/EgresoHandler.java:49-81 | nothing is lost or created by the loop, in quantity or in cost, and the loop stops pending only on an empty queue |
| EgresoHandler.ConsumirFifoPaso | portafolio-costing/src/main/java/com/app/engine/EgresoHandler.java:49-81 | one turn takes the smaller of the pending and the head's quantity from the head, and the loop goes on from the queue that turn leaves |
| EgresoHandler.Prefijar | portafolio-costing/src/main/java/com/app/engine/EgresoHandler.java:49-81 | the loop seen after some turns keeps its queue and its pending quantity and has those turns in front of its own |
| EgresoHandler.MedidaPaso | portafolio-costing/src/main/java/com/app/engine/EgresoHandler.java:49-81 | each turn either empties a lot or settles the pending quantity, so the loop ends |
| EgresoHandler.Termina | portafolio-costing/src/main/java/com/app/engine/EgresoHandler.java:49-81 | where the loop stops, the turns taken are all the turns of the run and the running cost is their cost |
| EgresoHandler.VueltaCola | portafolio-costing/src/main/java/com/app/engine/EgresoHandler.java:49-81 | one turn of the loop keeps it in step with the whole run, and its measure goes down |
| EgresoHandler.ConsumirFifoEnOrden | portafolio-costing/src/main/java/com/app/engine/EgresoHandler.java:49-81 | turn i took from the i-th lot of the queue |
| EgresoHandler.ConsumirFifoVacia | portafolio-costing/src/main/java/com/app/engine/EgresoHandler.java:77-80 | every turn but the last emptied its lot |
| EgresoHandler.ConsumirFifoResto | portafolio-costing/src/main/java/com/app/engine/EgresoHandler.java:62-80 | what is left is the untouched tail of the queue, after what remains of the last lot touched when it was not emptied |
| EgresoHandler.ConsumirFifoOrden | portafolio-costing/src/main/java/com/app/engine/EgresoHandler.java:49-81 | FIFO order: turn i took from the i-th lot, every lot but the last touched was emptied, and the rest of the queue is untouched |
| EgresoHandler.ConsumirFifoPositivos | portafolio-costing/src/main/java/com/app/engine/EgresoHandler.java:62-80 | lots with positive quantities stay positive, since an emptied lot is polled |
| EgresoHandler.SumPositivos | portafolio-costing/src/main/java/com/app/engine/EgresoHandler.java:49-81 | a queue of positive lots holds a quantity that is not negative |
| EgresoHandler.ConsumirFifoAgota | portafolio-costing/src/main/java/com/app/engine/EgresoHandler.java:49-53 | with positive lots, the loop runs out of lots exactly when the queue holds less than the sale |
| EgresoHandler.AjusteTx | portafolio-costing/src/main/java/com/app/engine/EgresoHandler.java:99-121 | the adjustment transaction has the shortfall as quantity, a price, is costed and not for revision, and has the sale's group and date |
| EgresoHandler.KardexParciales | portafolio-costing/src/main/java/com/app/engine/EgresoHandler.java:68-72 | one kardex record per turn |
| EgresoHandler.Detalles | portafolio-costing/src/main/java/com/app/engine/EgresoHandler.java:89-97 | one costing detail per turn |
| EgresoHandler.ConsumirEfecto | portafolio-costing/src/main/java/com/app/engine/EgresoHandler.java:45-86 | the FIFO part leaves the queue the loop leaves, one kardex and one detail per turn after the earlier records, no adjustment, fails exactly when the queue runs empty, and otherwise lowers the balance by the sale and the cost taken |
| EgresoHandler.Egresar | portafolio-costing/src/main/java/com/app/engine/EgresoHandler.java:27-87 | refused as insufficient exactly when the sale exceeds the balance by more than 0.5, and then nothing changes |
| EgresoHandler.EgresarConsume | portafolio-costing/src/main/java/com/app/engine/EgresoHandler.java:30-47 | a sale within the tolerance is the FIFO part run on the balance after any adjustment |
| EgresoHandler.ConsumirCuadra | portafolio-costing/src/main/java/com/app/engine/EgresoHandler.java:45-86 | a FIFO part that succeeds keeps the queue accounting for the balance |
| EgresoHandler.EgresarExito | portafolio-costing/src/main/java/com/app/engine/EgresoHandler.java:45-86 | a successful sale takes exactly its quantity from the queue, lowers the balance quantity by it and the balance value by the cost of the lots taken, and leaves the queue the loop leaves |
| EgresoHandler.EgresarTolerancia | portafolio-costing/src/main/java/com/app/engine/EgresoHandler.java:31-39 | a shortfall within the tolerance is adjusted so that the sale leaves a zero balance, and exactly one adjustment transaction is persisted |
| EgresoHandler.EgresarCuadra | portafolio-costing/src/main/java/com/app/engine/EgresoHandler.java:27-87 | a successful sale keeps the queue accounting for the balance |
| EgresoHandler.AjustarCuadra | portafolio-costing/src/main/java/com/app/engine/EgresoHandler.java:36-39 | the adjustment keeps the queue accounting for the balance |
| EgresoHandler.AjustarPositivos | portafolio-costing/src/main/java/com/app/engine/EgresoHandler.java:36-39 | the adjustment lot, queued at the tail, holds the positive shortfall |
| EgresoHandler.ConsumirSinColaVacia | portafolio-costing/src/main/java/com/app/engine/EgresoHandler.java:49-53 | the FIFO part never runs out of lots when the queue accounts for the balance with positive lots and the sale is within the balance |
| EgresoHandler.EgresarSinColaVacia | portafolio-costing/src/main/java/com/app/engine/EgresoHandler.java:27-87 | when the queue accounts for the balance with positive lots, a sale never fails for an empty queue |
| EgresoHandler.LibroVuelta | portafolio-costing/src/main/java/com/app/engine/EgresoHandler.java:68-75 | the records one turn persists extend those of the earlier turns by its kardex and its detail |
| EgresoHandler.Handle | portafolio-costing/src/main/java/com/app/engine/EgresoHandler.java:27-87 | the queue, the persisted records and the returned balance are those of the sale on the state before the call, or the exception |
| EgresoHandler.HandleFifo | portafolio-costing/src/main/java/com/app/engine/EgresoHandler.java:45-86 | the FIFO part of handle updates the queue and the records as the FIFO function says, and returns its balance or the empty-queue exception |
| EgresoHandler.AplicarAjuste | portafolio-costing/src/main/java/com/app/engine/EgresoHandler.java:99-129 | the balance, the queue and the records after the adjustment are those the adjustment function gives |
| EgresoHandler.ConsumirCola | portafolio-costing/src/main/java/com/app/engine/EgresoHandler.java:49-81 | the loop leaves the queue the FIFO run leaves, persists one kardex and one detail per turn, reports whether the sale was covered, and returns the cost taken |
| EgresoHandler.TomarDeCabeza | portafolio-costing/src/main/java/com/app/engine/EgresoHandler.java:50-80 | one turn takes the smaller of the pending and the head's quantity, at the head's unit cost, updates the head and persists that turn's records |
| EgresoHandler.ActualizarCabeza | portafolio-costing/src/main/java/com/app/engine/EgresoHandler.java:62-80 | the head lot loses the quantity taken and is polled once empty |
| EgresoHandler.RegistrarVuelta | portafolio-costing/src/main/java/com/app/engine/EgresoHandler.java:68-75 | the turn's kardex and detail extend the records of the earlier turns |
| KardexFactory.CreateFromIngreso | portafolio-costing/src/main/java/com/costing/engine/KardexFactory.java:13-33 | an ingreso kardex of the transaction and group, with its quantity, its price as unit cost, quantity times price as total cost, the whole quantity available and the given balance |
| KardexFactory.CreateFromEgreso | portafolio-costing/src/main/java/com/costing/engine/KardexFactory.java:35-58 | an egreso kardex of the transaction and group, with the quantity used, the partial cost as total cost, nothing available, the given balance, and unit cost 0 for a zero quantity |
| KardexFactory.EgresoUnitCostBound | portafolio-costing/src/main/java/com/costing/engine/KardexFactory.java:36-39 | the egreso unit cost is within half a millionth of the partial cost over the quantity used |
| KardexFactory.EgresoUnitCostOfLot | portafolio-costing/src/main/java/com/costing/engine/KardexFactory.java:36-39 | a turn that consumed a lot whose unit cost has at most six decimals records exactly that unit cost |
| CostingGroupProcessor.Costear | portafolio-costing/src/main/java/com/app/engine/CostingGroupProcessor.java:75-87 | a failed handler leaves the balance as it was; a transaction that is neither ingreso nor egreso changes nothing and succeeds |
| CostingGroupProcessor.Procesar | portafolio-costing/src/main/java/com/app/engine/CostingGroupProcessor.java:69-106 | never more costed transactions than given, and all of them when nothing fails |
| CostingGroupProcessor.ProcesarSnoc | portafolio-costing/src/main/java/com/app/engine/CostingGroupProcessor.java:69-106 | one more transaction: nothing happens after a failure; otherwise it is costed, and a handler failure stops the run with that handler's state |
| CostingGroupProcessor.PrefijoCons | portafolio-costing/src/main/java/com/app/engine/CostingGroupProcessor.java:69-106 | the run from the first transaction on is that transaction's handler followed by the run of the rest, unless the first one fails |
| CostingGroupProcessor.ProcesarFalla | portafolio-costing/src/main/java/com/app/engine/CostingGroupProcessor.java:69-106 | the costed transactions are a prefix that succeeds on its own; when the run fails, the transaction right after that prefix is the one whose handler failed, and it left the final state |
| CostingGroupProcessor.ProcesarCuadra | portafolio-costing/src/main/java/com/app/engine/CostingGroupProcessor.java:69-106 | a run of non-negative quantities that does not fail keeps the queue accounting for the balance |
| CostingGroupProcessor.MarcadasFlags | portafolio-costing/src/main/java/com/app/engine/CostingGroupProcessor.java:69-106 | after process a transaction is costed exactly when it comes before the first failure and for revision exactly otherwise, every other field unchanged |
| CostingGroupProcessor.Consulta | portafolio-costing/src/main/java/com/app/engine/CostingGroupProcessor.java:137-147 | the rows selected are exactly the group's ingreso records dated before the first transaction with a positive available quantity |
| CostingGroupProcessor.Insertar | portafolio-costing/src/main/java/com/app/engine/CostingGroupProcessor.java:149-151 | inserting a row adds exactly that row |
| CostingGroupProcessor.OrdenadaCons | portafolio-costing/src/main/java/com/app/engine/CostingGroupProcessor.java:150 | a row that comes before every row of a sorted list can head it |
| CostingGroupProcessor.InsertarOrdenada | portafolio-costing/src/main/java/com/app/engine/CostingGroupProcessor.java:149-151 | inserting into a sorted list keeps it sorted by date then id |
| CostingGroupProcessor.Ordenar | portafolio-costing/src/main/java/com/app/engine/CostingGroupProcessor.java:149-151 | sorting is a permutation of the selected rows |
| CostingGroupProcessor.OrdenarOrdenada | portafolio-costing/src/main/java/com/app/engine/CostingGroupProcessor.java:149-151 | sorted returns a permutation of its input in date-then-id order |
| CostingGroupProcessor.ColaHistorica | portafolio-costing/src/main/java/com/app/engine/CostingGroupProcessor.java:134-154 | the historic lots are queued sorted by date then id, each with an available quantity, and are exactly the rows the query selects |
| CostingGroupProcessor.Seleccionados | portafolio-costing/src/main/java/com/app/engine/CostingGroupProcessor.java:137-151 | a permutation of the selected rows holds exactly the selected rows, each with an available quantity |
| CostingGroupProcessor.Lotes | portafolio-costing/src/main/java/com/app/engine/CostingGroupProcessor.java:151 | one lot per row, in order, each holding its kardex's available quantity |
| CostingGroupProcessor.MinFecha | portafolio-costing/src/main/java/com/app/engine/CostingGroupProcessor.java:192-195 | the earliest date is a transaction's date and none is earlier |
| CostingGroupProcessor.MaxFecha | portafolio-costing/src/main/java/com/app/engine/CostingGroupProcessor.java:197-200 | the latest date is a transaction's date and none is later |
| CostingGroupProcessor.FechasMarcadas | portafolio-costing/src/main/java/com/app/engine/CostingGroupProcessor.java:184-200 | marking does not move a date, so the date range is the same before and after |
| CostingGroupProcessor.UltimoDelDia | portafolio-costing/src/main/java/com/app/engine/CostingGroupProcessor.java:225-231 | the day's closing movement is a movement of that day with the largest id; none exactly when the day has no movement |
| CostingGroupProcessor.CierreArrastra | portafolio-costing/src/main/java/com/app/engine/CostingGroupProcessor.java:236 | days without movements carry the balance of the last day that had one |
| CostingGroupProcessor.DiariosUnoPorDia | portafolio-costing/src/main/java/com/app/engine/CostingGroupProcessor.java:224-255 | exactly one record per day of the range, holding that day's closing balance; days outside the range keep their records |
| CostingGroupProcessor.DiaPaso | portafolio-costing/src/main/java/com/app/engine/CostingGroupProcessor.java:224-255 | one turn of the day loop writes that day's closing balance over the table of the earlier days |
| CostingGroupProcessor.GroupProcessor.constructor | portafolio-costing/src/main/java/com/app/engine/CostingGroupProcessor.java:40-52 | the processor holds its group's key, transactions, persistence context and daily balances, with an empty queue, an empty cache and zero balances |
| CostingGroupProcessor.GroupProcessor.Process | portafolio-costing/src/main/java/com/app/engine/CostingGroupProcessor.java:54-116 | an empty group changes nothing; otherwise the transactions are costed from the initial balance and the historic lots, a prefix is marked costed and the rest for revision, the balance cache follows the last costed transaction, and the daily balances are rewritten over the date range only when nothing failed |
| CostingGroupProcessor.GroupProcessor.CostTransactions | portafolio-costing/src/main/java/com/app/engine/CostingGroupProcessor.java:69-106 | the loop over the transactions keeps the state, the marks and the cache in step with the specified run, up to the end |
| CostingGroupProcessor.GroupProcessor.CostTurn | portafolio-costing/src/main/java/com/app/engine/CostingGroupProcessor.java:69-106 | one turn marks the transaction for revision after a failure, and otherwise costs it |
| CostingGroupProcessor.GroupProcessor.CostPending | portafolio-costing/src/main/java/com/app/engine/CostingGroupProcessor.java:74-105 | a turn while nothing has failed costs the transaction, marks it costed and updates the cache, or marks it for revision and records the failure |
| CostingGroupProcessor.GroupProcessor.RecorridoInicio | portafolio-costing/src/main/java/com/app/engine/CostingGroupProcessor.java:63-67 | before the loop, nothing is costed, marked or failed |
| CostingGroupProcessor.GroupProcessor.RecorridoFin | portafolio-costing/src/main/java/com/app/engine/CostingGroupProcessor.java:69-106 | after the loop, the state and the counts are those of the specified run on all transactions |
| CostingGroupProcessor.GroupProcessor.RecorridoPaso | portafolio-costing/src/main/java/com/app/engine/CostingGroupProcessor.java:69-106 | one turn of the main loop keeps the loop in step with the specified run |
| CostingGroupProcessor.GroupProcessor.InitializeBalances | portafolio-costing/src/main/java/com/app/engine/CostingGroupProcessor.java:118-132 | zero when the first transaction opens the history or no earlier kardex exists, otherwise the balance of the last earlier kardex |
| CostingGroupProcessor.GroupProcessor.InitializeFifoQueue | portafolio-costing/src/main/java/com/app/engine/CostingGroupProcessor.java:134-154 | the selected historic lots are queued sorted by date then id |
| CostingGroupProcessor.GroupProcessor.AddLots | portafolio-costing/src/main/java/com/app/engine/CostingGroupProcessor.java:151 | one lot per row, appended in order |
| CostingGroupProcessor.GroupProcessor.CostTransaction | portafolio-costing/src/main/java/com/app/engine/CostingGroupProcessor.java:75-87 | the state after the handler is that of costing the transaction, and the call succeeds exactly when the handler does |
| CostingGroupProcessor.GroupProcessor.UpdateSaldoKardex | portafolio-costing/src/main/java/com/app/engine/CostingGroupProcessor.java:156-182 | the group's balance entity, from the cache, else the repository, else a new one, gets the new quantity, cost and date, and is cached |
| CostingGroupProcessor.GroupProcessor.UpdateSaldosDiarios | portafolio-costing/src/main/java/com/app/engine/CostingGroupProcessor.java:184-256 | nothing for an empty group; otherwise one record per day from the earliest to the latest date holding that day's closing balance, nothing else changed |
| CostingGroupProcessor.GroupProcessor.WriteDays | portafolio-costing/src/main/java/com/app/engine/CostingGroupProcessor.java:224-255 | the day loop leaves exactly the daily-balance table the range specifies |
| CostingGroupProcessor.GroupProcessor.MarkTransactionForRevision | portafolio-costing/src/main/java/com/app/engine/CostingGroupProcessor.java:258-262 | only that transaction changes: not costed, for revision |
| CostingGroupProcessor.GroupProcessor.MarkTransactionAsCosted | portafolio-costing/src/main/java/com/app/engine/CostingGroupProcessor.java:264-268 | only that transaction changes: costed, not for revision |
| FifoCostingEngine.Filtrar | portafolio-costing/src/main/java/com/app/engine/FifoCostingEngine.java:39-40 | the elements kept are elements of the list with the given key |
| FifoCostingEngine.FiltrarSinClave | portafolio-costing/src/main/java/com/app/engine/FifoCostingEngine.java:39-40 | a key no transaction has selects nothing |
| FifoCostingEngine.AgruparFiltra | portafolio-costing/src/main/java/com/app/engine/FifoCostingEngine.java:39-40 | the groups are exactly the keys that occur, and each group is the non-empty list of the transactions with its key, in list order |
| FifoCostingEngine.FiltrarParticion | portafolio-costing/src/main/java/com/app/engine/FifoCostingEngine.java:39-40 | every transaction lies in the group of its own key as many times as in the list, and in no other group |
| FifoCostingEngine.FiltrarConservaOrden | portafolio-costing/src/main/java/com/app/engine/FifoCostingEngine.java:62-72 | within a group the transactions keep the order of the fetch query: date, opening balances first, ingresos before egresos, then id |
| FifoCostingEngine.ProcesarGrupo | portafolio-costing/src/main/java/com/app/engine/FifoCostingEngine.java:47-56 | a fresh processor for the group marks some prefix of the group's transactions, and the kardex, details and adjustments persisted are those of costing the group from its initial balance and historic lots |
| FifoCostingEngine.ProcesarCosteo | portafolio-costing/src/main/java/com/app/engine/FifoCostingEngine.java:33-59 | every group is processed exactly once, each by a processor of its own, and each group's result is a prefix of its transactions marked by that processor, and the persisted records are those of costing the groups one after the other in the order processed |
| CostingService.ParseGroupKey | portafolio-costing/src/main/java/com/costing/process/CostingServiceImpl.java:189-198 | a missing or blank key is rejected as empty; the key is accepted exactly when it splits on the bar into four parts, none holding a bar |
| CostingService.LeerGrupo | portafolio-costing/src/main/java/com/costing/process/CostingServiceImpl.java:81-86 | a read group has ids within the range of a Java long, and a key that fails to split fails the read with the same error |
| CostingService.ClaveEsJoin | portafolio-costing/src/main/java/com/app/engine/FifoCostingEngine.java:78 | the group key of a transaction is its four fields joined with a bar |
| CostingService.ClaveIdaVuelta | portafolio-costing/src/main/java/com/costing/process/CostingServiceImpl.java:81-86 | reading back the group key of a transaction whose account has no bar and whose ids fit a long gives that transaction's group |
| EntidadCacheManager.Cache.constructor | portafolio-normalizar/src/main/java/com/app/normalizar/EntidadCacheManager.java:17-21 | a new cache is empty and its loader has never run |
| EntidadCacheManager.Cache.ComputeIfAbsent | portafolio-normalizar/src/main/java/com/app/normalizar/EntidadCacheManager.java:42 | a cached key is answered from the map with nothing changed; a new key runs the loader once and caches its result, so the loader runs at most once per key |
| EntidadCacheManager.ClaveEmpresa | portafolio-normalizar/src/main/java/com/app/normalizar/EntidadCacheManager.java:37 | the company key holds no dot and no hyphen |
| EntidadCacheManager.ClaveEmpresaIdempotente | portafolio-normalizar/src/main/java/com/app/normalizar/EntidadCacheManager.java:37 | normalising an already normalised RUT gives the same key |
| EntidadCacheManager.ClaveEmpresaIgnoraPunto | portafolio-normalizar/src/main/java/com/app/normalizar/EntidadCacheManager.java:37 | a RUT written with or without a dot has the same key |
| EntidadCacheManager.SinPuntosConGuion | portafolio-normalizar/src/main/java/com/app/normalizar/EntidadCacheManager.java:37 | removing dots commutes with a hyphen-joined RUT |
| EntidadCacheManager.SinGuionIntermedio | portafolio-normalizar/src/main/java/com/app/normalizar/EntidadCacheManager.java:37 | removing hyphens erases the hyphen between the number and the check digit |
| EntidadCacheManager.ClaveEmpresaIgnoraGuion | portafolio-normalizar/src/main/java/com/app/normalizar/EntidadCacheManager.java:37 | a RUT written with or without the hyphen has the same key |
| EntidadCacheManager.ClaveCustodioCorrige | portafolio-normalizar/src/main/java/com/app/normalizar/EntidadCacheManager.java:46 | the misspelled, space-led custodian name and the correct one share the key "Pershing" |
| EntidadCacheManager.TextoProductoSinBarra | portafolio-normalizar/src/main/java/com/app/normalizar/EntidadCacheManager.java:55 | the product part of the instrument key holds no bar |
| EntidadCacheManager.NumeroNoEsNull | portafolio-normalizar/src/main/java/com/app/normalizar/EntidadCacheManager.java:55 | no product id prints as the text used for a missing product |
| EntidadCacheManager.IntToStringInyectiva | portafolio-normalizar/src/main/java/com/app/normalizar/EntidadCacheManager.java:55 | two product ids that print alike are equal |
| EntidadCacheManager.ClaveInstrumentoEsJoin | portafolio-normalizar/src/main/java/com/app/normalizar/EntidadCacheManager.java:55 | the instrument key is the nemo, the name and the product text joined with bars |
| EntidadCacheManager.ClaveInstrumentoInyectiva | portafolio-normalizar/src/main/java/com/app/normalizar/EntidadCacheManager.java:55 | for bar-free nemos and names, equal instrument keys mean equal nemo, equal name and the same product id, or no product id on both sides |
| EntidadCacheManager.EntidadCacheManager.constructor | portafolio-normalizar/src/main/java/com/app/normalizar/EntidadCacheManager.java:23-33 | the manager keeps its five DAOs and starts with five fresh, empty caches |
| EntidadCacheManager.EntidadCacheManager.GetEmpresa | portafolio-normalizar/src/main/java/com/app/normalizar/EntidadCacheManager.java:35-43 | an empty normalised RUT gives null without a DAO call; otherwise the company cached under the normalised RUT, loading it from the DAO on first use only |
| EntidadCacheManager.EntidadCacheManager.GetCustodio | portafolio-normalizar/src/main/java/com/app/normalizar/EntidadCacheManager.java:45-48 | the custodian cached under the trimmed, corrected name, loaded from the DAO with that name on first use only |
| EntidadCacheManager.EntidadCacheManager.GetProducto | portafolio-normalizar/src/main/java/com/app/normalizar/EntidadCacheManager.java:50-52 | the product cached under the account, loaded on first use only |
| EntidadCacheManager.EntidadCacheManager.GetInstrumento | portafolio-normalizar/src/main/java/com/app/normalizar/EntidadCacheManager.java:54-57 | the instrument cached under its nemo, name and product id key, loaded on first use only |
| EntidadCacheManager.EntidadCacheManager.GetTipoMovimiento | portafolio-normalizar/src/main/java/com/app/normalizar/EntidadCacheManager.java:59-61 | the movement type cached by name alone, loaded on first use only, so a later description for a known name is ignored |
| EntidadCacheManager.EmpresaDosVeces | portafolio-normalizar/src/main/java/com/app/normalizar/EntidadCacheManager.java:35-43 | asking twice for one RUT gives the same company both times and calls the DAO at most once, whatever the second company name |
| OperacionesTrxsService.Acumulados | portafolio-service/src/main/java/com/serv/service/OperacionesTrxsService.java:79-98 | the processed list has as many rows as the query returned |
| OperacionesTrxsService.CalcularSaldosAcumulados | portafolio-service/src/main/java/com/serv/service/OperacionesTrxsService.java:79-98 | every row of the list, in place, gets its type-signed total and the running balance up to and including it |
| OperacionesTrxsService.ObtenerTransaccionesPorGrupo | portafolio-service/src/main/java/com/serv/service/OperacionesTrxsService.java:34-77 | a blank company, then custodian, then account is rejected in that order; no instruments gives an empty list; otherwise the query's rows with totals and balances set |
| OperacionesTrxsService.SumasSnoc | portafolio-service/src/main/java/com/serv/service/OperacionesTrxsService.java:95 | one more row adds its purchases and its sales, a null counting as zero |
| OperacionesTrxsService.SaldoEsComprasMenosVentas | portafolio-service/src/main/java/com/serv/service/OperacionesTrxsService.java:80-97 | the running balance is total purchases minus total sales |
| OperacionesTrxsService.SaldoAcumuladoEsPrefijo | portafolio-service/src/main/java/com/serv/service/OperacionesTrxsService.java:95-96 | each row's balance is the purchases minus the sales of that row and all before it, and equals the previous balance plus the row's own net |
| OperacionesTrxsService.AcumuladosConservaFilas | portafolio-service/src/main/java/com/serv/service/OperacionesTrxsService.java:83-93 | each row keeps its other fields; an ingreso's total becomes non-negative and an egreso's non-positive with the same magnitude; any other type keeps its total, a null one becoming zero |
| OperacionesTrxsService.TotalNormalizadoIdempotente | portafolio-service/src/main/java/com/serv/service/OperacionesTrxsService.java:87-93 | normalising a normalised total changes nothing |
| RutValidator.Limpiar | portafolio-etl/src/main/java/com/etl/util/RutValidator.java:10 | the cleaned text holds no dot, no hyphen and no lower-case ASCII letter |
| RutValidator.NormalizarRut | portafolio-etl/src/main/java/com/etl/util/RutValidator.java:26-31 | null stays null; any other text becomes its cleaned form |
| RutValidator.LimpiarFijo | portafolio-etl/src/main/java/com/etl/util/RutValidator.java:26-31 | text with no dot, hyphen or lower-case letter is its own normal form |
| RutValidator.NormalizarIdempotente | portafolio-etl/src/main/java/com/etl/util/RutValidator.java:26-31 | normalising twice gives the same as normalising once |
| RutValidator.Peso | portafolio-etl/src/main/java/com/etl/util/RutValidator.java:35-41 | every multiplier lies between 2 and 7 |
| RutValidator.PesoSiguiente | portafolio-etl/src/main/java/com/etl/util/RutValidator.java:41 | the multiplier after 7 is 2, otherwise it goes up by one |
| RutValidator.DigitoDeSuma | portafolio-etl/src/main/java/com/etl/util/RutValidator.java:44-53 | the check digit is K or a decimal digit |
| RutValidator.DigitoVerificador | portafolio-etl/src/main/java/com/etl/util/RutValidator.java:33-54 | the check digit of a body is K or a decimal digit |
| RutValidator.CalcularDigitoVerificador | portafolio-etl/src/main/java/com/etl/util/RutValidator.java:33-54 | the loop over the digits from the right gives the check digit of the weighted sum, with a body that is not positive summing to 0 |
| RutValidator.EsRutValido | portafolio-etl/src/main/java/com/etl/util/RutValidator.java:5-24 | null and empty text are not valid; the call throws exactly when non-empty text cleans to nothing; a valid RUT has a body that parses as a Java int and a last character that is K or a digit |
| RutValidator.ValidezNormalizada | portafolio-etl/src/main/java/com/etl/util/RutValidator.java:5-31 | validity depends only on the normal form, whenever that form is not empty |
| RutValidator.SinSignos | portafolio-etl/src/main/java/com/etl/util/RutValidator.java:10 | removing dots and hyphens from digits, an optional hyphen and a final character leaves the digits and the final character |
| RutValidator.LimpiarRut | portafolio-etl/src/main/java/com/etl/util/RutValidator.java:10 | the normal form of such a RUT is its digits followed by its upper-cased final character |
| RutValidator.RutConDigito | portafolio-etl/src/main/java/com/etl/util/RutValidator.java:5-54 | digits of a body that fits a Java int, with or without a hyphen, followed by a character are valid exactly when that character, upper-cased, is the body's check digit |
| RutValidator.GuionSoloLanza | portafolio-etl/src/main/java/com/etl/util/RutValidator.java:6-14 | as written, a lone hyphen passes the null-or-empty guard, cleans to nothing and makes the body split throw |
| RutValidator.EsRutValidoSeguro | portafolio-etl/src/main/java/com/etl/util/RutValidator.java:5-24 | as intended, valid exactly when the code as written answers true, and text that cleans to nothing is simply not valid |
| ResultadoInstrumentoService.Crear | portafolio-service/src/main/java/com/serv/service/ResultadoInstrumentoService.java:33-46 | the service is built exactly when all three dependencies are present, a missing kardex service being reported first, and it keeps them |
| ResultadoInstrumentoService.MenorIrreflexivo | portafolio-service/src/main/java/com/serv/service/ResultadoInstrumentoService.java:84-88 | no row sorts strictly before itself |
| ResultadoInstrumentoService.MenorTransitivo | portafolio-service/src/main/java/com/serv/service/ResultadoInstrumentoService.java:84-88 | the comparator's not-greater relation is transitive |
| ResultadoInstrumentoService.MenorTotal | portafolio-service/src/main/java/com/serv/service/ResultadoInstrumentoService.java:84-88 | any two sort keys are equal or ordered one way or the other |
| ResultadoInstrumentoService.InsertarMultiset | portafolio-service/src/main/java/com/serv/service/ResultadoInstrumentoService.java:84-88 | inserting a row adds exactly that row |
| ResultadoInstrumentoService.InsertarOrdenada | portafolio-service/src/main/java/com/serv/service/ResultadoInstrumentoService.java:84-88 | inserting into a sorted list keeps it sorted by date, nulls last, then id, null as the largest long |
| ResultadoInstrumentoService.ConClaveSnoc | portafolio-service/src/main/java/com/serv/service/ResultadoInstrumentoService.java:84-88 | one more row at the end extends the rows of its key |
| ResultadoInstrumentoService.InsertarEstable | portafolio-service/src/main/java/com/serv/service/ResultadoInstrumentoService.java:84-88 | inserting a row places it after every row with the same key |
| ResultadoInstrumentoService.OrdenarEsOrdenEstable | portafolio-service/src/main/java/com/serv/service/ResultadoInstrumentoService.java:84-88 | the sort returns a permutation in comparator order that keeps rows with equal keys in their original order |
| ResultadoInstrumentoService.AsignarGastos | portafolio-service/src/main/java/com/serv/service/ResultadoInstrumentoService.java:111-117 | the list keeps its length |
| ResultadoInstrumentoService.CalcularUtilidades | portafolio-service/src/main/java/com/serv/service/ResultadoInstrumentoService.java:119-134 | the list keeps its length |
| ResultadoInstrumentoService.AsignarGastosEn | portafolio-service/src/main/java/com/serv/service/ResultadoInstrumentoService.java:111-117 | in place, every row becomes the row with its expense assigned |
| ResultadoInstrumentoService.CalcularUtilidadPorOperacion | portafolio-service/src/main/java/com/serv/service/ResultadoInstrumentoService.java:119-134 | in place, every row's realised result becomes its line result |
| ResultadoInstrumentoService.AsignarGastosFila | portafolio-service/src/main/java/com/serv/service/ResultadoInstrumentoService.java:111-117 | a row with an id gets its mapped expense, zero without an entry, and nothing else; a row without an id is untouched |
| ResultadoInstrumentoService.AsignarGastosIdempotente | portafolio-service/src/main/java/com/serv/service/ResultadoInstrumentoService.java:111-117 | assigning the expenses twice is the same as once |
| ResultadoInstrumentoService.FilaNoRealizada | portafolio-service/src/main/java/com/serv/service/ResultadoInstrumentoService.java:168-190 | no kardex, a last quantity that is not positive, or no balance gives no row; a null quantity fails, and with a positive quantity and a balance, a null price or cost fails and nothing else does; the row exists exactly when all are present and the quantity is positive, and holds market price times quantity minus cost |
| ResultadoInstrumentoService.FilaTotales | portafolio-service/src/main/java/com/serv/service/ResultadoInstrumentoService.java:136-158 | the appended row is the TOTALES summary row and every summable field of it is set |
| ResultadoInstrumentoService.TotalesNoSeCuentan | portafolio-service/src/main/java/com/serv/service/ResultadoInstrumentoService.java:136-150 | the realised-result total leaves out the TOTALES row, so summing again after appending it gives the same total; every other field of the row is the sum of that field's non-null values |
| ResultadoInstrumentoService.Historial | portafolio-service/src/main/java/com/serv/service/ResultadoInstrumentoService.java:78-108 | the history is empty exactly when there is no operation or dividend row, or when the unrealised row throws and the exception is caught |
| ResultadoInstrumentoService.Validar | portafolio-service/src/main/java/com/serv/service/ResultadoInstrumentoService.java:59-65 | the arguments pass exactly when the three ids are present and the account is not blank |
| ResultadoInstrumentoService.ObtenerHistorialResultados | portafolio-service/src/main/java/com/serv/service/ResultadoInstrumentoService.java:57-109 | failed checks give their error; otherwise the history built in place equals the specified history |
| ResultadoInstrumentoService.SumarCampoSnoc | portafolio-service/src/main/java/com/serv/service/ResultadoInstrumentoService.java:160-166 | one more row adds its value of the field, a null counting as zero |
| ResultadoInstrumentoService.SumarCampoInsertar | portafolio-service/src/main/java/com/serv/service/ResultadoInstrumentoService.java:160-166 | a field's sum does not depend on where a row is inserted |
| ResultadoInstrumentoService.SumarCampoOrdenar | portafolio-service/src/main/java/com/serv/service/ResultadoInstrumentoService.java:160-166 | sorting keeps every field's sum |
| ResultadoInstrumentoService.SumarCampoAppend | portafolio-service/src/main/java/com/serv/service/ResultadoInstrumentoService.java:160-166 | the sum over two lists joined is the sum of their sums |
| ResultadoInstrumentoService.TotalUtilidadLineas | portafolio-service/src/main/java/com/serv/service/ResultadoInstrumentoService.java:119-147 | with no summary rows, the total realised result after the line results is the original realised results plus the dividends minus the expenses |
| ResultadoInstrumentoService.CalcularUtilidadesConserva | portafolio-service/src/main/java/com/serv/service/ResultadoInstrumentoService.java:119-134 | the line results change no summed field but the realised result |
| ResultadoInstrumentoService.HistorialForma | portafolio-service/src/main/java/com/serv/service/ResultadoInstrumentoService.java:78-103 | a non-empty history is one detail row per operation and dividend, then TOTALES with the purchase and sale totals of all of them, then the unrealised row exactly when it exists |
| ResultadoInstrumentoService.DetalleLongitud | portafolio-service/src/main/java/com/serv/service/ResultadoInstrumentoService.java:78-94 | the detail has one row per operation and dividend |
| ResultadoInstrumentoService.DetalleSuma | portafolio-service/src/main/java/com/serv/service/ResultadoInstrumentoService.java:78-94 | the detail's purchase and sale totals are those of the operations plus the dividends |
| ResultadoInstrumentoService.GastosNoTocan | portafolio-service/src/main/java/com/serv/service/ResultadoInstrumentoService.java:111-117 | assigning expenses changes no summed field but the expenses |
| ResultadoInstrumentoService.SinFilasSinResumen | portafolio-service/src/main/java/com/serv/service/ResultadoInstrumentoService.java:97-100 | with no operations and no dividends the history is empty, without summary rows |
| ResumenSaldoEmpresaService.ObtenerResumenSaldos | portafolio-service/src/main/java/com/serv/service/ResumenSaldoEmpresaService.java:32-43 | the summary is empty exactly when the query returned no rows |
| ResumenSaldoEmpresaService.Porcentaje | portafolio-service/src/main/java/com/serv/service/ResumenSaldoEmpresaService.java:145-154 | a zero grand total gives 0; otherwise the percentage is within 0.005 of the exact share of the grand total |
| ResumenSaldoEmpresaService.Procesar | portafolio-service/src/main/java/com/serv/service/ResumenSaldoEmpresaService.java:72-114 | the report always ends with the grand-total row, holding the sums of all CLP and USD balances |
| ResumenSaldoEmpresaService.ProcesarResultadosConTotales | portafolio-service/src/main/java/com/serv/service/ResumenSaldoEmpresaService.java:72-114 | the loop over the rows builds exactly the specified report |
| ResumenSaldoEmpresaService.Tramos | portafolio-service/src/main/java/com/serv/service/ResumenSaldoEmpresaService.java:88-105 | rows split into non-empty runs of consecutive rows, none exactly when there are no rows |
| ResumenSaldoEmpresaService.ConPorcentajes | portafolio-service/src/main/java/com/serv/service/ResumenSaldoEmpresaService.java:103 | each row of a run gets its percentage of the grand total and nothing else |
| ResumenSaldoEmpresaService.Subtotales | portafolio-service/src/main/java/com/serv/service/ResumenSaldoEmpresaService.java:117-121 | one subtotal row per run |
| ResumenSaldoEmpresaService.SumasSnoc | portafolio-service/src/main/java/com/serv/service/ResumenSaldoEmpresaService.java:76-81 | one more row adds its CLP and USD balances to the sums |
| ResumenSaldoEmpresaService.SumaClpAppend | portafolio-service/src/main/java/com/serv/service/ResumenSaldoEmpresaService.java:76-78 | the CLP sum over two lists joined is the sum of their sums |
| ResumenSaldoEmpresaService.TramosMismo | portafolio-service/src/main/java/com/serv/service/ResumenSaldoEmpresaService.java:94 | a row of the last run's company extends that run |
| ResumenSaldoEmpresaService.TramosOtro | portafolio-service/src/main/java/com/serv/service/ResumenSaldoEmpresaService.java:94-99 | a row of another company opens a new run |
| ResumenSaldoEmpresaService.ConPorcentajesSnoc | portafolio-service/src/main/java/com/serv/service/ResumenSaldoEmpresaService.java:103 | one more row of a run adds its row with its percentage |
| ResumenSaldoEmpresaService.EmitirSnoc | portafolio-service/src/main/java/com/serv/service/ResumenSaldoEmpresaService.java:95-109 | one more run adds its rows followed by its subtotal |
| ResumenSaldoEmpresaService.PasoMismo | portafolio-service/src/main/java/com/serv/service/ResumenSaldoEmpresaService.java:101-104 | a row of the current company adds to the running subtotals and to the output |
| ResumenSaldoEmpresaService.UnaFila | portafolio-service/src/main/java/com/serv/service/ResumenSaldoEmpresaService.java:101-104 | a run of one row sums to that row's balances |
| ResumenSaldoEmpresaService.PasoOtro | portafolio-service/src/main/java/com/serv/service/ResumenSaldoEmpresaService.java:94-104 | a row of another company emits the subtotal of the run it closes and starts the next run with its own balances |
| ResumenSaldoEmpresaService.RecorrerTieneEmpresa | portafolio-service/src/main/java/com/serv/service/ResumenSaldoEmpresaService.java:89-91 | with non-empty names, once a row is read the loop has a current company |
| ResumenSaldoEmpresaService.RecorrerSnoc | portafolio-service/src/main/java/com/serv/service/ResumenSaldoEmpresaService.java:88-105 | the loop over one more row is one more turn |
| ResumenSaldoEmpresaService.PasoInicial | portafolio-service/src/main/java/com/serv/service/ResumenSaldoEmpresaService.java:89-91 | the first row opens the first run |
| ResumenSaldoEmpresaService.PasoTramo | portafolio-service/src/main/java/com/serv/service/ResumenSaldoEmpresaService.java:88-105 | one more row, whichever run it joins, keeps the loop's variables those of the runs so far |
| ResumenSaldoEmpresaService.RecorrerPorTramos | portafolio-service/src/main/java/com/serv/service/ResumenSaldoEmpresaService.java:84-105 | with non-empty names, after the rows the loop holds the last run's company and sums and has emitted the blocks of the earlier runs |
| ResumenSaldoEmpresaService.ProcesarPorTramos | portafolio-service/src/main/java/com/serv/service/ResumenSaldoEmpresaService.java:72-114 | with non-empty names, the report is each run's rows with their percentages followed by its subtotal, then the grand total |
| ResumenSaldoEmpresaService.TramosAplanan | portafolio-service/src/main/java/com/serv/service/ResumenSaldoEmpresaService.java:88-105 | laid end to end the runs give back the rows in order |
| ResumenSaldoEmpresaService.HomogeneosMismo | portafolio-service/src/main/java/com/serv/service/ResumenSaldoEmpresaService.java:94 | extending the last run with its own company keeps every run single-company |
| ResumenSaldoEmpresaService.HomogeneosOtro | portafolio-service/src/main/java/com/serv/service/ResumenSaldoEmpresaService.java:94-99 | a new one-row run keeps every run single-company |
| ResumenSaldoEmpresaService.AlternanMismo | portafolio-service/src/main/java/com/serv/service/ResumenSaldoEmpresaService.java:94 | extending the last run keeps consecutive runs of different companies |
| ResumenSaldoEmpresaService.AlternanOtro | portafolio-service/src/main/java/com/serv/service/ResumenSaldoEmpresaService.java:94-99 | a run of a new company keeps consecutive runs of different companies |
| ResumenSaldoEmpresaService.TramosHomogeneosAlternan | portafolio-service/src/main/java/com/serv/service/ResumenSaldoEmpresaService.java:88-105 | every run holds one company and consecutive runs hold different companies |
| ResumenSaldoEmpresaService.TramosMaximales | portafolio-service/src/main/java/com/serv/service/ResumenSaldoEmpresaService.java:88-105 | the runs are maximal: one company each, different from the neighbour's |
| ResumenSaldoEmpresaService.EmitirLongitud | portafolio-service/src/main/java/com/serv/service/ResumenSaldoEmpresaService.java:95-109 | the blocks have one row per row plus one subtotal per run |
| ResumenSaldoEmpresaService.SubtotalesSuman | portafolio-service/src/main/java/com/serv/service/ResumenSaldoEmpresaService.java:95-109 | the subtotals add up to the CLP sum of all rows |
| ResumenSaldoEmpresaService.ReporteCuadra | portafolio-service/src/main/java/com/serv/service/ResumenSaldoEmpresaService.java:72-114 | the report has one row per row, one per run and the grand total, whose CLP balance is the sum of the subtotals and whose percentage is 100 |
| ResumenSaldoEmpresaService.PorcentajeAcotado | portafolio-service/src/main/java/com/serv/service/ResumenSaldoEmpresaService.java:145-154 | a non-negative balance no larger than a positive grand total gets a percentage from 0 to 100 |
| SaldoActualService.ConSaldoPositivo | portafolio-service/src/main/java/com/service/service/SaldoActualService.java:62-66 | the kept items are inventory items, each with a non-null positive quantity, no more than the inventory |
| SaldoActualService.ValorizarTodos | portafolio-service/src/main/java/com/service/service/SaldoActualService.java:67-85 | one position per item, each the valuation of its item |
| SaldoActualService.ObtenerSaldosValorizados | portafolio-service/src/main/java/com/service/service/SaldoActualService.java:45-91 | the loop over the inventory returns the specified valuation; an empty inventory gives an empty list |
| SaldoActualService.ValorizadosSnoc | portafolio-service/src/main/java/com/service/service/SaldoActualService.java:62-87 | one more item adds its position exactly when its quantity is positive |
| SaldoActualService.ConSaldoPositivoSnoc | portafolio-service/src/main/java/com/service/service/SaldoActualService.java:66 | one more item is kept exactly when its quantity is positive |
| SaldoActualService.TodosConSaldoAppend | portafolio-service/src/main/java/com/service/service/SaldoActualService.java:66 | joining two lists of positive-quantity items keeps them all positive |
| SaldoActualService.ValorizarTodosAppend | portafolio-service/src/main/java/com/service/service/SaldoActualService.java:67-85 | valuing two lists joined is valuing each and joining the results |
| SaldoActualService.ValorizadosFiltra | portafolio-service/src/main/java/com/service/service/SaldoActualService.java:62-87 | the result is exactly the positive-quantity items, in inventory order, each valued |
| SaldoActualService.ValorizarFila | portafolio-service/src/main/java/com/service/service/SaldoActualService.java:66-83 | a position keeps the item's id, quantity and cost; the price is the mapped one or zero; market value is quantity times price; the unit cost is cost over quantity to within half a unit of the fourth decimal; the unrealised result is zero without a price and market value minus cost with one |
| SaldoActualService.ValorizadosPositivos | portafolio-service/src/main/java/com/service/service/SaldoActualService.java:62-87 | one position per positive-quantity item, each with a positive quantity and valued from an inventory item |
| TransaccionService.ValidarDto | portafolio-service/src/main/java/com/serv/service/TransaccionService.java:146-171 | a DTO passes exactly when every id, the date and a non-blank account are present and quantity and price are positive; a missing company is reported first, and a bad price only once the quantity is good |
| TransaccionService.EntidadFaltante | portafolio-service/src/main/java/com/serv/service/TransaccionService.java:79-86 | no entity is missing exactly when the company, custodian, instrument and movement type all exist |
| TransaccionService.Recortar | portafolio-service/src/main/java/com/serv/service/TransaccionService.java:194 | the trimmed text neither begins nor ends with a character up to U+0020, and is no longer than the input |
| TransaccionService.Folio | portafolio-service/src/main/java/com/serv/service/TransaccionService.java:205-206 | the folio is never blank: the trimmed folio given when trimming leaves something, MANUAL when it is missing or blank |
| TransaccionService.Total | portafolio-service/src/main/java/com/serv/service/TransaccionService.java:209 | the amount is quantity times price, and positive when both are |
| TransaccionService.ConstruirTransaccion | portafolio-service/src/main/java/com/serv/service/TransaccionService.java:182-219 | the built transaction has the DTO's ids, date, quantity and price; the account equal to the DTO's account trimmed, and not blank; the glosa equal to the DTO's glosa trimmed, or none; the currency equal to the DTO's currency trimmed, or CLP when missing; zero for a missing charge; the folio Folio chooses; the positive amount quantity times price in both currencies; and no costing flag set |
| TransaccionService.CrearTransaccionManual | portafolio-service/src/main/java/com/serv/service/TransaccionService.java:69-106 | a null DTO and an invalid DTO are rejected with their own errors; a valid DTO whose company, custodian, instrument or movement type is not found fails with NoEncontrada naming the first missing one, in that order; otherwise the result is the transaction built from the DTO |
| TransaccionService.CreadaEsCoherente | portafolio-service/src/main/java/com/serv/service/TransaccionService.java:182-217 | a created transaction carries the DTO's ids and date, the DTO's account trimmed and non-blank, the DTO's glosa trimmed (or none), the DTO's currency trimmed or CLP when missing, the trimmed folio or MANUAL when it is missing or blank, an amount equal in both currencies to quantity times price and positive, zero for missing charges, and no costing flag set |
| TransaccionService.ValidaSeCrea | portafolio-service/src/main/java/com/serv/service/TransaccionService.java:69-91 | a valid DTO whose entities all exist is always created |
| TransaccionService.Alternar | portafolio-service/src/main/java/com/serv/service/TransaccionService.java:116-131 | a null id and an unknown id are rejected with the store unchanged; the toggle succeeds exactly for a stored id and keeps the stored ids |
| TransaccionService.AlternarSoloEseFlag | portafolio-service/src/main/java/com/serv/service/TransaccionService.java:127-129 | the toggle flips that transaction's flag and changes nothing else |
| TransaccionService.AlternarDosVeces | portafolio-service/src/main/java/com/serv/service/TransaccionService.java:116-131 | toggling twice restores every stored transaction |
| TransaccionService.Transacciones.constructor | portafolio-service/src/main/java/com/serv/service/TransaccionService.java:116-131 | the store starts with the given transactions |
| TransaccionService.Transacciones.ToggleIgnorarEnCosteo | portafolio-service/src/main/java/com/serv/service/TransaccionService.java:116-131 | the stored transactions, in place, and the outcome are those of the specified toggle |
| Decimal.RoundHalfUpInt | portafolio-service/src/main/java/com/service/service/SaldoActualService.java:70 | HALF_UP rounding to an integer moves a value by at most one half and keeps its sign |
| Decimal.RoundToBound | portafolio-service/src/main/java/com/service/service/SaldoActualService.java:70 | rounding a quotient to a fixed number of decimals with HALF_UP moves it by at most half a unit of the last decimal |
| Decimal.RoundToExact | portafolio-service/src/main/java/com/service/service/SaldoActualService.java:70 | a value that already has the requested number of decimals is not changed by the rounding |
| Decimal.RoundHalfUp | portafolio-service/src/main/java/com/serv/service/SaldoMensualService.java:316-333 | rounding to a number of decimals with HALF_UP moves a value by at most half a unit of its last decimal |
| Decimal.Divide | portafolio-service/src/main/java/com/service/service/SaldoActualService.java:70 | the quotient rounded with HALF_UP is within half a unit of its last decimal of the exact quotient |
| Text.Trim | portafolio-service/src/main/java/com/serv/service/AuthenticationService.java:48-58 | the trimmed text is no longer than the input, neither begins nor ends with a character up to U+0020, and is empty exactly when every character is one |
| Text.Strip | resources/Scripts/carga_trxs.py:31-35 | the stripped text is no longer than the input, neither begins nor ends with whitespace, and is empty exactly when the input is blank |
| Text.JavaSplit | portafolio-costing/src/main/java/com/costing/process/CostingServiceImpl.java:193 | text without the separator splits into itself; otherwise trailing empty pieces are dropped; no piece holds the separator |
| Text.JavaSplitJoin | portafolio-costing/src/main/java/com/costing/process/CostingServiceImpl.java:193 | splitting the join of two or more pieces without the separator, the last one not empty, gives the pieces back |
| Text.ParseInteger | portafolio-costing/src/main/java/com/costing/process/CostingServiceImpl.java:83-86 | a parsed long lies within the range of a Java long |
| Text.ParseIntToString | portafolio-costing/src/main/java/com/costing/process/CostingServiceImpl.java:83-86 | parsing the decimal text of an id within range gives that id back |
| SaldoMensualService.ValidarParametrosEntrada | portafolio-service/src/main/java/com/serv/service/SaldoMensualService.java:81-104 | valid exactly when the business name is present and not blank, the year is in 2000..2100, the currency is USD or CLP in any letter case, and a present custodian trims to at most 100 characters |
| SaldoMensualService.ConstruirQuerySegura | portafolio-service/src/main/java/com/serv/service/SaldoMensualService.java:110-127 | the USD amount column exactly when the currency equals USD ignoring case, otherwise the CLP column; the custodian clause exactly when it is asked for |
| SaldoMensualService.UltimoMesHasta | portafolio-service/src/main/java/com/serv/service/SaldoMensualService.java:168-180 | the result is at most the starting month, its total is not zero, and every month after it up to the start totals zero |
| SaldoMensualService.CalcularFilaTotal | portafolio-service/src/main/java/com/serv/service/SaldoMensualService.java:185-203 | the total row built in a 12-slot array is, month by month, the sum of that month over all rows, with a null counted as zero |
| SaldoMensualService.EncontrarUltimoMesConDatos | portafolio-service/src/main/java/com/serv/service/SaldoMensualService.java:168-180 | the search downward from December returns the last month whose total is not zero, or 0 |
| SaldoMensualService.CalcularFilaUtilidad | portafolio-service/src/main/java/com/serv/service/SaldoMensualService.java:208-231 | each month is its total minus the previous month's; January and every month after the last one with data are 0 |
| SaldoMensualService.CalcularFilaUtilidadAcumulada | portafolio-service/src/main/java/com/serv/service/SaldoMensualService.java:236-255 | each month up to the last one with data is the running sum of the monthly results; later months are 0 |
| SaldoMensualService.CalcularFilaDeVariaciones | portafolio-service/src/main/java/com/serv/service/SaldoMensualService.java:260-283 | each month up to the last one with data is its variation against January; January and later months are 0 |
| SaldoMensualService.CalcularFilaVariacionMensual | portafolio-service/src/main/java/com/serv/service/SaldoMensualService.java:288-311 | each month up to the last one with data is its variation against the previous month; January and later months are 0 |
| SaldoMensualService.Filtrar | portafolio-service/src/main/java/com/serv/service/SaldoMensualService.java:133-136 | keeps only rows of the input, each with a non-zero annual sum, and never more rows than it was given |
| SaldoMensualService.FilasResumen | portafolio-service/src/main/java/com/serv/service/SaldoMensualService.java:155-159 | exactly five summary rows: total, monthly result, accumulated result, variation against January, variation against the previous month |
| SaldoMensualService.ProcesarResultadosCompletos | portafolio-service/src/main/java/com/serv/service/SaldoMensualService.java:132-163 | empty when no row has activity; otherwise the rows with activity, in order, followed by the five summary rows |
| SaldoMensualService.ObtenerSaldosMensuales | portafolio-service/src/main/java/com/serv/service/SaldoMensualService.java:38-76 | empty for invalid parameters and for a null annual sum (the exception is caught); otherwise what the row processing gives |
| SaldoMensualService.AcumuladaTelescopica | portafolio-service/src/main/java/com/serv/service/SaldoMensualService.java:236-255 | up to the last month with data, the running sum of the monthly results telescopes to the month's total minus January's |
| SaldoMensualService.FilaTotalSuma | portafolio-service/src/main/java/com/serv/service/SaldoMensualService.java:185-203 | every month of the total row holds the sum of that month over the rows with activity |
| SaldoMensualService.FilaAcumuladaTelescopa | portafolio-service/src/main/java/com/serv/service/SaldoMensualService.java:236-255 | the accumulated row holds total minus January up to the last month with data, and 0 after it |
| SaldoMensualService.DerivadasCeroFuera | portafolio-service/src/main/java/com/serv/service/SaldoMensualService.java:208-311 | January and every month after the last one with data are 0 in the monthly result row and in both variation rows |
| SaldoMensualService.DerivadasDentro | portafolio-service/src/main/java/com/serv/service/SaldoMensualService.java:208-311 | within the months with data, the monthly result is the change of the total and the variations compare with January and with the previous month |
| SaldoMensualService.UltimoMesEsElMayor | portafolio-service/src/main/java/com/serv/service/SaldoMensualService.java:168-180 | the last month with data is 0 exactly when every month totals zero; otherwise its total is not zero and every later month totals zero |
| SaldoMensualService.VariacionSignifica | portafolio-service/src/main/java/com/serv/service/SaldoMensualService.java:316-333 | a value compared with itself varies by 0, and any variation is within 0.05005 of the exact percentage change |
| SaldoMensualService.SaldosMensualesForma | portafolio-service/src/main/java/com/serv/service/SaldoMensualService.java:132-163 | with valid parameters, the result is empty exactly when no row has activity; otherwise it is the rows with activity then five summary rows, from "Total general" to "Variación Mensual %" |
| SaldoMensualService.FiltrarVacio | portafolio-service/src/main/java/com/serv/service/SaldoMensualService.java:133-141 | the filtered list is empty exactly when no row has a non-zero annual sum |

## Left out

- Databases, JPA entity managers and transactions, and logging are not modelled. A query is modelled as the rows it returns; `persist` is modelled as an append to `Costeo.Libro`; `merge` and `flush` are left out.
- Spreadsheets are inputs. Each cell is its POI type, its value and the text POI's `DataFormatter` gives it; the formatter itself is not modelled. pandas' `read_excel` and `to_datetime` are parameters of the Python loaders.
- Clocks are parameters. Dates are `Calendar` dates or day numbers, and login times are whole minutes. `LoginAttemptInfo.lastAttempt` is written but never read, so nothing about it is proved.
- BCrypt and `encodePassword` (AuthenticationService.java:109-128) are left out. The password check is a parameter.
- Decimals: `BigDecimal` and Python `float` are exact reals. A BigDecimal's scale, trailing zeros and precision are not modelled, and neither is float rounding beyond the `str` rendering that finding 1 needs. HALF_UP division is given a concrete definition (`Decimal.RoundHalfUp`) instead of being left abstract.
- Text: trimming, stripping and case conversion cover ASCII only. Java and Python also treat some non-ASCII characters as blanks or letters; those cases are not modelled.
- `IngresoHandler.java:16-25` returns only the new quantity. `CostingGroupProcessor.java:79-81`, however, reads an `IngresoResult` with both a quantity and a value. The model follows the processor: `IngresoHandler.Ingresar` returns both values, as computed on lines 17-18.
- The order in which `FifoCostingEngine.procesarCosteo` visits the groups comes from a `HashMap`, so it is unspecified. The model processes each group once, with its own processor, in an unspecified order.
- The `LocalDate.now()` fallbacks of `CostingGroupProcessor.java:192-200` cannot be reached, because `process` returns early on an empty group. They are not modelled.
- `OperacionesTrxsService.ObtenerTransaccionesPorGrupo`: a query that throws is not modelled. The source catches it and returns an empty list (OperacionesTrxsService.java:71-75).
- `ResultadoInstrumentoService.ObtenerHistorialResultados`: a repository exception is not modelled. The one exception that is modelled is the null quantity, price or cost of the unrealised row. Any of these makes the source return an empty list (ResultadoInstrumentoService.java:105-108).
- ResumenSaldoEmpresaService: null CLP or USD balances are not modelled; the balances are reals. The lemmas about the report's shape require non-empty company names (`NombresNoVacios`), because the loop uses the empty name to mean "no company yet".
- `TransaccionService.CrearTransaccionManual`: a persistence failure, which the source wraps in a `RuntimeException`, is not modelled.
- SaldoActualService.ValorizarFila: states the unit cost only to within half a unit of the fourth decimal, not its exact HALF_UP value. The function it describes computes the exact value.
- The database plumbing of `CostingServiceImpl` (`ejecutarCosteoCompleto`, the adjustment operations, `obtenerGruposDeCosteo`) is left out. Only `parseGroupKey` and its use in `recostearGrupo` are modelled.
- `TransaccionService.obtenerTransaccionPorId` is a single query and is not modelled.
- AuthenticationService.Autenticacion: follows the corrected failure count, in which a user's first failure stores one attempt. AuthenticationService.java:152-160 as written stores zero (finding 4), so the source locks an account one failure later than this member.
- AuthenticationService.AutenticarUsuario: follows the corrected failure count; as written the first failure stores zero attempts (finding 4).
- AuthenticationService.AuthenticationService.RecordFailedAttemptFor: follows the corrected failure count; as written the first failure stores zero attempts (finding 4). `AuthenticationService.RegistrarFallo` is the count as written.
- AuthenticationService.AuthenticationService.Autenticar: follows the corrected failure count; as written the first failure stores zero attempts (finding 4).
- AuthenticationService.AuthenticationService.AutenticarNormalizado: follows the corrected failure count; as written the first failure stores zero attempts (finding 4).
- AuthenticationService.PasswordErroneoRegistra: states the corrected failure count, in which a user without a record gets one attempt; as written that user gets zero (finding 4).
- CargaTrxs.LimpiarValor: uses the corrected number coercion, so a float cell keeps its value. As written, carga_trxs.py:35 turns 10.5 into 105.0 (finding 1).
- CargaTrxs.FechaDe: uses the corrected date extraction, so a name with an impossible date has no date. As written, carga_trxs.py:49 raises `ValueError` there (finding 2).
- CargaTrxs.Listing: dates each file with `CargaTrxs.FechaDe`, so it follows the corrected date extraction (finding 2).
- CargaTrxs.SeleccionarArchivos: skips a file whose name holds an impossible date. As written, the uncaught `ValueError` ends the script during selection, before the connection is opened, and nothing is loaded (finding 2).
- CargaTrxs.CargaTrxs: follows both corrections. It keeps float cells' values (finding 1) and skips files with impossible dates where the script as written would stop without loading anything (finding 2).
- EgresoHandler and Costeo.Libro: EgresoHandler.java:62-64 also writes the lot's new available quantity back into the ingreso's kardex entity (`setCantidadDisponible`, then `merge`). The model does not. `Costeo.Libro.kardex` keeps each ingreso row as it was created, so a later run's `InitializeFifoQueue` reads the creation-time quantities rather than what is left of them.
- CostingGroupProcessor: `saldo.recalcularCostoPromedio()` (CostingGroupProcessor.java:174) and `setFechaUltimaActualizacion` are not modelled. The group balance holds only its quantity and total cost.
- CostingGroupProcessor.GroupProcessor.Process: the answers of `findLastBeforeDate` and `findByGroupAndDateRange` (`q.saldoPrevio`, `q.movimientos`) are parameters. They are not tied to the kardex rows and daily balances the same run has just written.
- CargaTrxs.ParseFloat: reads what Python's `float` reads for a decimal number: a sign, digits with at most one point, and an exponent. It does not read the underscores `float` allows between digits (`1_000`), nor `inf`, `infinity` and `nan` in any case and with any sign. It returns None for these, so the loader stores 0 where the script stores the float. `CargaSaldos.FloatSinComas` uses the same parser.
- The Python loaders' MySQL server is the parameter `acepta` of `CargaTrxs.CargaTrxs` and of `CargaSaldos.CargaSaldos`, which says whether each INSERT succeeds. Why the server refuses a row (a value too long for its column, say) is not modelled. The model assumes the connection itself survives: a lost connection would make every later statement fail, including the final `conexion.commit()` (carga_trxs.py:163), so nothing would be committed. In `carga_trxs.py` the consequence of a refusal is: the rows already inserted from that sheet stay, the rest of the sheet is skipped, and loading goes on with the next sheet.
- CargaSaldos.CargaSaldos: a refused INSERT (carga_saldos.py:90, outside any try) raises out of the script. The model shows this as a connection that is never committed and is closed, which rolls its rows back. That rollback assumes a transactional table (InnoDB, MySQL's default engine). The exception itself, and the failure of the `CREATE TABLE` or the table check, are not modelled.
- AbstractCarga: exceptions thrown by `processor.procesar` (AbstractCarga.java:71) are not modelled. Only `MappingException` from the mapper and `IOException` from reading the file are. The processor itself is not modelled: the model returns the DTOs handed to it, so every DTO counts as processed.

## Findings

Each row below is modelled twice. One member follows the code as written and shows the discrepancy. The other is the corrected definition. Which half the rest of the model uses differs by row:

- Numeric cells (carga_trxs.py:35): the loader `CargaTrxs.CargaTrxs` cleans values with the corrected `CargaTrxs.CoerceNumber`. `CargaTrxs.CoerceNumberAsWritten` stands alone.
- File dates (carga_trxs.py:46-50): the file selection (`CargaTrxs.FechaDe`, `CargaTrxs.Listing`, `CargaTrxs.SeleccionarArchivos`) uses the corrected `CargaTrxs.ExtraerFechaArchivo`. `CargaTrxs.ExtraerFechaArchivoAsWritten` stands alone.
- RUT validation (RutValidator.java:6-14): nothing else in the model validates RUTs. `RutValidator.EsRutValido` is the validator as written, exception included; `RutValidator.EsRutValidoSeguro` is the corrected definition beside it.
- Lockout (AuthenticationService.java:152-160): the service uses the corrected count, as the next paragraph says.

The lockout finding changes a behaviour users see. The service class `AuthenticationService.AuthenticationService` and the function `Autenticacion` count every failure, the first one included. `AuthenticationService.RegistrarFallo` keeps the count as written, and `MaxFallosNoBloquean` is proved about it.

| source | as written | input that shows it | evidently intended | confidence | as-written member | corrected member |
|---|---|---|---|---|---|---|
| resources/Scripts/carga_trxs.py:35 | a numeric cell is rendered with `str`, every dot is removed and the text is parsed again, so a cell pandas already read as a float loses its decimal point | a cell holding 10.5 in a numeric column is stored as 105.0 | only text cells need the Chilean thousands dot removed; a cell that is already a number keeps its value | not executed | CargaTrxs.CoerceNumberAsWrittenFloat | CargaTrxs.NumeroKeepsNumbers |
| resources/Scripts/carga_trxs.py:46-50 | `strptime` runs on any eight digits the pattern finds, and its `ValueError` is not caught, so one badly named file stops the whole run | the file name mvtos_1_20240230_1.xlsx (30 February) | a name whose date does not exist has no date, and the file is not eligible | not executed | CargaTrxs.ExtraerFechaFebruary30 | CargaTrxs.ExtraerFechaCorrects |
| portafolio-etl/src/main/java/com/etl/util/RutValidator.java:6-14 | the null-or-empty guard runs before normalisation; a string that normalises to nothing then reaches `substring(0, -1)`, which throws `StringIndexOutOfBoundsException` | the RUT "-" | text that normalises to nothing is simply not a valid RUT | not executed | RutValidator.GuionSoloLanza | RutValidator.EsRutValidoSeguro |
| portafolio-service/src/main/java/com/serv/service/AuthenticationService.java:152-160 | a user's first failure creates a record with zero attempts, so the account is locked only by failure MAX_LOGIN_ATTEMPTS + 1 | MAX_LOGIN_ATTEMPTS consecutive wrong passwords for a user without a record leave the account open | the account is locked after MAX_LOGIN_ATTEMPTS failures | not executed | AuthenticationService.MaxFallosNoBloquean | AuthenticationService.TrasFallosCorregidoBloquea |
