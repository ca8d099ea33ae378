# Greenhouse crop register and sales analysis — a Dafny model

This project models the core logic of a small greenhouse-management system.

- **Desktop register (cultivos.py).** It keeps a list of crops (`Cultivo`: name, sowing and
  harvest dates, notes, zone, purchase and sale price, alert days). The list lives in a JSON file.
  The application adds, edits and deletes entries and shows the time left to each harvest.
  It totals costs and sales and warns at start-up about today's harvests and upcoming ones.
  It also analyses an external sales ledger: per product, per region, and a monthly series
  whose next month is named for a forecast.
- **Web front end (scripts.js).** It shows the same crops from an API. It filters them by a
  search text, computes KPI totals, marks rows by harvest status and alert, and keeps an
  add/edit mode that decides whether a submit POSTs a new crop or PUTs over an existing one.
- **Sales ledger script (analizador_ventas.py).** It cleans the amount column of a CSV ledger,
  computes total, mean, maximum and minimum, and sums sales per product, largest first.

Modules, one concept each:

- `Wrappers`: `Option`, `Result`.
- `Secuencias`: filter, map, sum, subsequence.
- `Texto`: trimming, lowercasing, substring search, decimal digits, JavaScript's `parseInt`.
- `Cultivos`: the record, its dictionary form, time remaining, totals, harvest check.
- `Registro`: the class `RegistroCultivos` holding the list and the edit-mode index.
- `Ventas`: the in-place cleaning class `TablaVentas`, metrics, group-by-and-sort.
- `AnalisisExterno`: months, the monthly series, the forecast label.
- `Frontend`: the web logic and the class `FormularioWeb` holding `modoEdicion` and the original name.

Conventions:

- Dates are integer day numbers, and "today" is a parameter.
- Money is `real`.
- Library conversions are function arguments: `strptime`, `isoformat`, `float(str)`,
  `int(str)`, `pd.to_numeric`, `Date.parse`, `parseFloat`.
- A file is the outcome of reading it.

The web table's status class looks for "COSECHA HOY" and "Cosechado hace". The desktop writes
a past harvest as "¡COSECHADO HACE n DÍAS!", in capitals. `Frontend.ClaseDeTextoEscritorio`
proves that, on the desktop's wording, a past harvest gets the future class. The server that
fills `dias_restantes` for the web is not part of this model, so whether it uses that wording
is open.

## Model

| member | source | states |
|---|---|---|
| Cultivos.Campo | cultivos.py:69-70 | `item[clave]` succeeds exactly when the key is present and then yields its value; otherwise `KeyError` |
| Cultivos.Truncar | cultivos.py:75 | `int()` of a float truncates toward zero: the result is within one of the input, on the side of zero |
| Cultivos.ItemACultivo | cultivos.py:68-79 | one load iteration: it succeeds exactly when both dates are strings, the optional fields are absent or of a kind their conversion accepts, and (when both dates parse) the name is a string; a readable item whose date does not parse is skipped without raising; a missing date key raises; on success both dates were strings and a crop is produced exactly when both parse, with those dates and the item's name; notes and zone are the strings present or ""; each price is the float present, the integer present as a real, or the text `float` reads, and 0.0 when absent; alert days are the integer present, the float truncated toward zero, or the text `int` reads, and 0 when absent |
| Cultivos.CargarItems | cultivos.py:68-79 | the load keeps at most one crop per item |
| Cultivos.CargarArchivo | cultivos.py:57-82 | no file gives an empty list without error; an undecodable file gives an empty list and an error |
| Cultivos.CargarConcat | cultivos.py:65-82 | loading `a + b` is loading `a`, then, only if `a` did not raise, loading `b` after it (the crops read before an exception stay loaded) |
| Cultivos.CargarLista | cultivos.py:60-79 | the append loop builds exactly the list and error flag of the load specification |
| Cultivos.ItemDeDict | cultivos.py:86-98 | reading back the dictionary written for a crop gives the same crop (when `strptime` reads what `isoformat` writes) |
| Cultivos.GuardarYCargar | cultivos.py:84-98 | save then load restores the whole list, in order, and raises nothing |
| Cultivos.CamposPorDefecto | cultivos.py:71-75 | an item with only a name and two readable dates loads with notes "", zone "", prices 0.0 and alert days 0 |
| Cultivos.CalcularPlazo | cultivos.py:344-353 | three-way split of harvest versus today: past with d = today − harvest ≥ 1, today, future with d = harvest − today ≥ 1 |
| Cultivos.TiempoRestante | cultivos.py:344-353 | the text is "¡COSECHA HOY!" exactly on the harvest day; a future harvest's text is "d Días Restantes" with d = harvest − today, and it parses (as `parseInt`) to d; a past harvest's text is "¡COSECHADO HACE d DÍAS!" whose digits read back to d = today − harvest, and it does not parse |
| Cultivos.EtiquetaSigueAlPlazo | cultivos.py:641-646 | the row tag makes the same three-way split as the time-remaining text |
| Cultivos.ColorMargen | cultivos.py:663-668 | red exactly for a negative total margin, green exactly for a positive one, neutral otherwise |
| Cultivos.MargenTotal | cultivos.py:657-658 | total sales minus total cost equals the sum of the per-crop margins |
| Cultivos.ClasificacionCosechas | cultivos.py:677-688 | a crop is in today's list exactly when 0 days remain, in the early alerts exactly when 1 ≤ days ≤ `dias_alerta`, never in both; every copy of a qualifying crop is kept and no copy of another |
| Cultivos.OrdenCosechas | cultivos.py:677-688 | both lists keep the order of the register |
| Cultivos.SinDiasDeAlerta | cultivos.py:686 | when no crop has positive alert days there is no early alert |
| Cultivos.RevisarCosechas | cultivos.py:674-688 | the scan loop yields the names of today's harvests and the (name, days) of early alerts, as the filters specify |
| Cultivos.ComponerRecordatorio | cultivos.py:691-709 | the message is empty exactly when both lists are; the title is "¡ALERTA MÁXIMA!" whenever something is harvested today and "Alerta Temprana" exactly when only early alerts exist; the label shows the message or the all-clear text |
| Texto.QuitarIzquierda | cultivos.py:375 | leading whitespace is removed and only whitespace is removed; the result is a suffix |
| Texto.QuitarDerecha | cultivos.py:375 | trailing whitespace is removed and only whitespace is removed; the result is a prefix |
| Texto.RecortarEsRecorte | scripts.js:189 | trimming removes exactly the whitespace at both ends: the result is a slice of the text with only whitespace around it, and it neither starts nor ends with whitespace |
| Texto.RecortarVacio | scripts.js:48 | a trimmed text is empty exactly when the text is all whitespace |
| Texto.Minusculas | scripts.js:123 | lowercasing keeps the length and maps each character |
| Texto.Decimal | cultivos.py:348 | the decimal text of a number is non-empty and all digits |
| Texto.ValorDecimal | cultivos.py:348 | the decimal text reads back to the number |
| Texto.ParseInt | scripts.js:228 | `parseInt` is NaN exactly when no digit follows the optional whitespace and sign |
| Texto.ParseIntDecimal | scripts.js:228 | `parseInt` of a number's decimal text followed by a non-digit gives back the number |
| Registro.Validar | cultivos.py:374-399 | each rejection happens exactly under its condition in the source's order (unparseable number, negative alert days, missing name or date, harvest before sowing); an accepted form gives a crop with the trimmed texts, the chosen dates in order and alert days ≥ 0 |
| Registro.RegistroCultivos.constructor | cultivos.py:111-120 | start in add mode with the list the load produces |
| Registro.RegistroCultivos.LimpiarCampos | cultivos.py:183-197 | back to add mode, list unchanged |
| Registro.RegistroCultivos.AgregarOEditar | cultivos.py:374-423 | a rejected form changes nothing; add mode appends exactly the validated crop; edit mode overwrites exactly the selected entry; success returns to add mode |
| Registro.RegistroCultivos.EditarSeleccionado | cultivos.py:426-449 | with a selection and an in-range focused index, edit mode is entered on that index and its crop returned; otherwise nothing changes |
| Registro.RegistroCultivos.EliminarSeleccionado | cultivos.py:453-473 | a confirmed delete removes exactly the focused entry, keeps the others in order, and returns to add mode; declining or a bad selection changes nothing |
| Registro.RegistroCultivos.Guardar | cultivos.py:84-98 | the save loop writes one dictionary per crop in order, and loading them back gives the list |
| Registro.RegistroCultivos.CalcularTotalesFinancieros | cultivos.py:336-342 | the accumulator loop yields the sums of purchase and sale prices, whose difference is the sum of margins |
| Registro.RegistroCultivos.RevisarCosechasAlInicio | cultivos.py:671-709 | the warning is empty exactly when nothing is harvested today and nothing is due within its alert days; its title follows the harvest-today rule |
| Ventas.ANumero | analizador_ventas.py:36 | coercion leaves no text cell and keeps numbers |
| Ventas.TablaVentas.ConvertirVentas | analizador_ventas.py:36 | the amount column is replaced in place by its coercion, row by row |
| Ventas.TablaVentas.DescartarNulos | analizador_ventas.py:39 | exactly the rows whose amount is missing are dropped in place, the rest kept in order |
| Ventas.ConvertidaSinTexto | analizador_ventas.py:36-39 | after coercion, dropping the missing amounts keeps exactly the rows with a numeric amount: the two statements together are the cleaning |
| Ventas.LimpiarConcat | analizador_ventas.py:36-39 | cleaning works row by row: the cleaned concatenation is the concatenation of the cleaned parts |
| Ventas.LimpiarFila | analizador_ventas.py:36-39 | a single row survives, converted, exactly when its amount is a number or parses |
| Ventas.LimpiezaNumerica | analizador_ventas.py:36-39 | after cleaning every row has a numeric amount, and the survivors are the converted rows in order |
| Ventas.Maximo | analizador_ventas.py:59 | the maximum is one of the amounts and no amount exceeds it |
| Ventas.Minimo | analizador_ventas.py:60 | the minimum is one of the amounts and no amount is below it |
| Ventas.SumaAcotada | analizador_ventas.py:51-60 | n amounts within [lo, hi] sum to between n·lo and n·hi |
| Ventas.MediaEntre | analizador_ventas.py:55-60 | a sum bounded by n·lo and n·hi has its mean between lo and hi |
| Ventas.CalcularMetricas | analizador_ventas.py:51-60 | total = sum of cleaned amounts; mean, max and min exist exactly for non-empty data; the maximum and minimum are those of the amounts (attained and bounding all of them), with mean · count = total and min ≤ mean ≤ max |
| Ventas.Claves | analizador_ventas.py:67 | the group keys are distinct and are exactly the keys some row has (rows without a key are left out) |
| Ventas.GruposDe | analizador_ventas.py:67 | one group per key, each holding the sum of that key's rows |
| Ventas.SumaClaveAusente | analizador_ventas.py:67 | a key no row has sums to 0 |
| Ventas.GruposConFila | analizador_ventas.py:67 | one more row adds its amount to its own key's group and no other |
| Ventas.GruposConservan | analizador_ventas.py:67 | the group totals add up to the amount of the rows that have a key |
| Ventas.Insertar | analizador_ventas.py:67 | insertion adds exactly that group: the result is a permutation of the list plus the group |
| Ventas.InsertarOrdenado | analizador_ventas.py:67 | inserting into a list sorted by decreasing total keeps it sorted |
| Ventas.SumaInsertar | analizador_ventas.py:67 | insertion adds the group's total to the list's sum |
| Ventas.OrdenarDesc | analizador_ventas.py:67 | sorting gives a non-increasing permutation with the same sum |
| Ventas.InsertarUnicas | analizador_ventas.py:67 | inserting a new key keeps keys unique |
| Ventas.OrdenarUnicas | analizador_ventas.py:67 | sorting keeps keys unique |
| Ventas.AgruparOrdenado | analizador_ventas.py:67 | group-by-sum-sort: sorted non-increasing, one entry per distinct key, each the sum of its rows, totals adding up to the keyed rows' amount |
| Ventas.SumaConTodasLasClaves | analizador_ventas.py:51-67 | when every row has a key, the keyed amount is the total |
| Ventas.ProductosSumanTotal | analizador_ventas.py:51-67 | when every cleaned row names a product, the per-product totals sum to the global total |
| Ventas.AnalizarVentas | analizador_ventas.py:10-67 | a missing file, a format error and any other read error each stop the run with its own message before any metric; a read ledger is cleaned in place and reported by the metrics and the per-product series |
| AnalisisExterno.NumeroMes | cultivos.py:545-547 | the month map is defined exactly on the abbreviations of the month list, and maps each back to its position: `meses_lista[mapa_meses[m] - 1] == m` |
| AnalisisExterno.NumeroDeEtiqueta | cultivos.py:545-564 | the converse: `mapa_meses[meses_lista[n - 1]] == n` for 1 ≤ n ≤ 12 |
| AnalisisExterno.SerieDesde | cultivos.py:547-549 | the monthly series has strictly ascending month numbers in 1..12; each point is a month some row has, labelled with its abbreviation and holding that month's total |
| AnalisisExterno.SerieCompleta | cultivos.py:547-549 | every month some row has gets its point in the series |
| AnalisisExterno.SerieMensualOrdenada | cultivos.py:547-549 | the whole series is ascending and each point carries its own abbreviation |
| AnalisisExterno.SumaMesesPartida | cultivos.py:547-549 | the amount of months ≥ n is month n's total plus that of months ≥ n + 1 |
| AnalisisExterno.SumaMesesUno | cultivos.py:547 | with every month known, the amount of months ≥ 1 is the total |
| AnalisisExterno.SerieSumaDesde | cultivos.py:547-549 | the series from month n sums to the amount of the months ≥ n |
| AnalisisExterno.SerieConservaTotal | cultivos.py:547-549 | with every month known, the monthly totals add up to the total sales |
| AnalisisExterno.SerieNoVacia | cultivos.py:537-549 | non-empty cleaned data with known months has a non-empty series |
| AnalisisExterno.UltimoMes | cultivos.py:561 | the maximum month number is in the series and bounds all of them |
| AnalisisExterno.UltimoEsMaximo | cultivos.py:561 | in the ascending series the maximum is the last point |
| AnalisisExterno.NombreMesFuturo | cultivos.py:564-567 | months 1..12 are named by the list, later ones "Mes n" |
| AnalisisExterno.NombreTrasDiciembre | cultivos.py:562-567 | the forecast is named "Mes 13" exactly when the last month with sales is "Dic" |
| AnalisisExterno.EtiquetasX | cultivos.py:577 | the trend labels are the series' months followed by "Pred. " and the forecast name: one more than the series |
| AnalisisExterno.CalcularPronostico | cultivos.py:561-577 | the forecast month is the last month + 1, in 2..13; months 2..12 are named by the month list at that month, 13 is "Mes 13", which happens exactly after "Dic"; the labels are the series' months then "Pred. " and that name |
| AnalisisExterno.AnalizarVentasExternas | cultivos.py:509-577 | file and read errors, an empty cleaned ledger and an unmapped month each stop the analysis; otherwise per-product and per-region series, sorted largest first, and the forecast of the monthly series |
| Frontend.FiltrarCultivos | scripts.js:122-141 | a blank query gives the data unchanged; otherwise the result keeps the data's order and holds exactly the crops whose lowercased name+zone+notes+harvest date contain the lowercased, trimmed query, each with all of its copies |
| Frontend.FiltrarDosVeces | scripts.js:130-139 | filtering an already filtered list with the same test changes nothing |
| Frontend.FiltrarIdempotente | scripts.js:122-141 | searching the search result again with the same text gives the same result |
| Secuencias.FiltrarMultiplicidad | scripts.js:130-139 | filtering keeps every copy of an element that passes and no copy of one that fails |
| Frontend.ValidarFechas | scripts.js:174-182 | false exactly when both dates parse and sowing is after harvest |
| Frontend.ValidarFechasComoEscritorio | scripts.js:174-182 | with both dates parsed, accepted exactly when sowing ≤ harvest; an unparseable date and equal dates pass |
| Frontend.ActualizarKpis | scripts.js:147-165 | the loop totals purchase and sale prices with unparseable values as 0; profit = sales − cost = the sum of per-crop profits; primary colour exactly when profit ≥ 0 |
| Frontend.ClaseEstado | scripts.js:217-225 | "today" exactly when the text contains "COSECHA HOY"; "past" exactly when it does not but contains "Cosechado hace"; otherwise "future" |
| Frontend.SinCaracter | scripts.js:221-223 | a pattern holding a character the text lacks does not occur in it |
| Frontend.TextoPasado | scripts.js:221-223 | the desktop's past-harvest text contains neither pattern |
| Frontend.TextoFuturo | scripts.js:221-223 | the desktop's future-harvest text contains neither pattern |
| Frontend.ClaseDeTextoEscritorio | scripts.js:217-225 | on the desktop's remaining-time text the class is "today" exactly on the harvest day and "future" otherwise |
| Frontend.EsAlerta | scripts.js:227-231 | a row is an alert exactly when its remaining-days text parses to d with 0 < d ≤ its alert days |
| Frontend.AlertaComoEscritorio | scripts.js:227-231 | on the desktop's remaining-time text the web alert is exactly the desktop's early alert |
| Frontend.ObtenerDatos | scripts.js:187-197 | the name is empty exactly when the typed name is all whitespace; name, zone and notes lose exactly their leading and trailing whitespace; dates are sent as typed; a price `parseFloat` cannot read is 0, and alert days `parseInt` cannot read are 0 |
| Frontend.DiasAlertaTecleados | scripts.js:195 | alert days typed as a number followed by a non-digit are sent as that number |
| Frontend.Destino | scripts.js:59-66 | PUT exactly in edit mode, to a URL extending the base; POST to the base otherwise |
| Frontend.DestinoInyectivo | scripts.js:64 | different original names give different PUT URLs |
| Frontend.FormularioWeb.constructor | scripts.js:12 | the page starts in add mode |
| Frontend.FormularioWeb.CargarParaEdicion | scripts.js:274-287 | with both prices numbers: edit mode on, original name = the crop's name ("undefined" when absent); a price that is not a number makes `toFixed` throw first, and mode and original name stay as they were |
| Frontend.FormularioWeb.ResetFormulario | scripts.js:300-301 | edit mode off, original name "" |
| Frontend.FormularioWeb.EnviarFormulario | scripts.js:43-66 | no request exactly when the name, a date is empty or the dates are out of order; otherwise POST to the base URL in add mode (when no original name is kept) and PUT to base/original name in edit mode, carrying the form's body |
| Frontend.FormularioWeb.ProcesarRespuesta | scripts.js:79-85 | a successful answer resets the form; an error keeps the mode and name |

## Left out

- Tk widgets, the calendar pop-up, message boxes, matplotlib plots, the DOM and `fetch` are not modelled. Dialogs appear as error values; the web's GET and DELETE calls are not part of this model.
- app_backend.py is not part of this model. It holds Flask routes over a hosted store, with JWT and CORS.
- The linear-regression fit and its prediction are not modelled. They are floating-point library calls; only the forecast month, its name and the label list are.
- Reading and writing files is not modelled. `json.load`, `pd.read_csv` and `os.path.exists` appear as the outcome of the read.
- `exportar_a_csv` is not modelled; it only writes a file.
- Dates are day numbers. `strptime`, `isoformat`, `Date.parse`, `float(str)`, `int(str)`, `pd.to_numeric` and `parseFloat` are function arguments, not their grammars.
- Floating point is modelled as exact `real` arithmetic. `NaN` is `None`, and `:.2f`/`toFixed` formatting is not modelled.
- `datetime.date.today()` is a parameter.
- Cultivos.ItemACultivo: a `notas`, `zona` or `nombre` value that is not a string stops the load in the model, whereas Python would store it. The model's crops only hold strings there.
- Registro.Validar: negative alert days and an unparseable number show the same dialog in the source; the model names them apart.
- Registro.RegistroCultivos.AgregarOEditar: editing overwrites the eight fields of the `Cultivo` object in place; the model replaces the list entry with an equal value. Nothing else holds a reference to that object, so the list contents are the same.
- Cultivos.Archivo: only decoded JSON that is a list of objects is modelled. A top-level object (iterated by its keys, so indexing a key raises `TypeError`, while `{}` loads nothing), a list holding a non-object, or a scalar are not represented.
- Form-field bookkeeping is not modelled: StringVars, button texts, the success messages.
- Ventas.CalcularMetricas: for an empty cleaned ledger pandas prints `nan` for mean, maximum and minimum, and the model gives no statistics. The later plot of an empty series is not modelled.
- Ventas.AnalizarVentas: a ledger without one of its columns (a `KeyError`) is not modelled. Every row has the four columns; a missing cell is `None`.
- AnalisisExterno.AnalizarVentasExternas: a missing or unknown month is one error, `MesDesconocido`. In the source it raises `TypeError` (a float list index) or, when no month maps at all, a fit error.
- Texto.ParseInt: JavaScript's `0x` hexadecimal prefix is not modelled; "0x10" reads as 0.
- Texto.Minuscula: lowercasing covers ASCII and Latin-1 letters only, not all of Unicode.
- Texto.EsEspacio: whitespace is the ASCII whitespace plus no-break space, not every Unicode space that `strip()`/`trim()` remove.
- Frontend.CultivoWeb: a `null` field and an absent one are both `None`. Frontend.FormularioWeb.CargarParaEdicion writes "undefined" for an absent name; a `null` name (which the input shows as "") is not distinguished.
- Frontend.EsAlerta: `dias_alerta` is an integer or absent; JavaScript's coercion of a text-valued `dias_alerta` in `<=` is not modelled.
- Frontend.NumeroOCero: a JSON number price is taken as is; `parseFloat` of its printed form is assumed to give it back.
