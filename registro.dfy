/** The state the desktop application changes in place (cultivos.py): the module-level list
    `lista_cultivos` and the add/edit mode flag `cultivo_seleccionado_indice`, with the
    handlers of the add/edit, edit, delete and clear buttons, save, the totals and the
    harvest check. The Tk form is the `Formulario` argument; dialogs are results. */
module Registro {
  import opened Wrappers
  import opened Texto
  import opened Secuencias
  import opened Cultivos

  /** What the form holds when "save" is pressed: the entry texts and the dates chosen in
      the calendar (`None` until one is chosen). */
  datatype Formulario = Formulario(
    nombre: string,
    siembra: Option<int>,
    cosecha: Option<int>,
    notas: string,
    zona: string,
    compra: string,
    venta: string,
    diasAlerta: string)

  /** The error dialogs of `manejar_agregar_o_editar`, in the order it checks them. */
  datatype ErrorFormulario = NumeroInvalido | DiasNegativos | FaltanDatos | CosechaAnteriorASiembra

  /** `float(texto.strip() or 0.0)`. */
  function LeerPrecio(texto: string, conv: Conversores): Option<real> {
    var t := Recortar(texto);
    if t == "" then Some(0.0) else conv.leerReal(t)
  }

  /** `int(texto.strip() or 0)`. */
  function LeerDias(texto: string, conv: Conversores): Option<int> {
    var t := Recortar(texto);
    if t == "" then Some(0) else conv.leerEntero(t)
  }

  predicate NumerosLegibles(f: Formulario, conv: Conversores) {
    LeerPrecio(f.compra, conv).Some? && LeerPrecio(f.venta, conv).Some? && LeerDias(f.diasAlerta, conv).Some?
  }

  /** The checks `manejar_agregar_o_editar` runs before touching the list, and the crop the
      form describes when they all pass. */
  function Validar(f: Formulario, conv: Conversores): (r: Result<Cultivo, ErrorFormulario>)
    ensures r == Failure(NumeroInvalido) <==> !NumerosLegibles(f, conv)
    ensures r == Failure(DiasNegativos) <==> NumerosLegibles(f, conv) && LeerDias(f.diasAlerta, conv).value < 0
    ensures r == Failure(FaltanDatos) <==>
      NumerosLegibles(f, conv) && LeerDias(f.diasAlerta, conv).value >= 0
      && (Recortar(f.nombre) == "" || f.siembra.None? || f.cosecha.None?)
    ensures r == Failure(CosechaAnteriorASiembra) <==>
      NumerosLegibles(f, conv) && LeerDias(f.diasAlerta, conv).value >= 0
      && Recortar(f.nombre) != "" && f.siembra.Some? && f.cosecha.Some? && f.cosecha.value < f.siembra.value
    ensures r.Success? ==>
      && r.value.nombre == Recortar(f.nombre) != ""
      && Some(r.value.siembra) == f.siembra && Some(r.value.cosecha) == f.cosecha
      && r.value.siembra <= r.value.cosecha
      && r.value.notas == Recortar(f.notas) && r.value.zona == Recortar(f.zona)
      && Some(r.value.precioCompra) == LeerPrecio(f.compra, conv)
      && Some(r.value.precioVenta) == LeerPrecio(f.venta, conv)
      && Some(r.value.diasAlerta) == LeerDias(f.diasAlerta, conv) && r.value.diasAlerta >= 0
  {
    Revisar(Recortar(f.nombre), f.siembra, f.cosecha, Recortar(f.notas), Recortar(f.zona),
            LeerPrecio(f.compra, conv), LeerPrecio(f.venta, conv), LeerDias(f.diasAlerta, conv))
  }

  /** The same checks on the values already read from the form. */
  function Revisar(nombre: string, siembra: Option<int>, cosecha: Option<int>, notas: string, zona: string,
                   compra: Option<real>, venta: Option<real>, dias: Option<int>): (r: Result<Cultivo, ErrorFormulario>)
    ensures r == Failure(NumeroInvalido) <==> compra.None? || venta.None? || dias.None?
    ensures r == Failure(DiasNegativos) <==> compra.Some? && venta.Some? && dias.Some? && dias.value < 0
    ensures r == Failure(FaltanDatos) <==>
      compra.Some? && venta.Some? && dias.Some? && dias.value >= 0
      && (nombre == "" || siembra.None? || cosecha.None?)
    ensures r == Failure(CosechaAnteriorASiembra) <==>
      compra.Some? && venta.Some? && dias.Some? && dias.value >= 0
      && nombre != "" && siembra.Some? && cosecha.Some? && cosecha.value < siembra.value
    ensures r.Success? ==>
      && r.value == Cultivo(nombre, siembra.value, cosecha.value, notas, zona, compra.value, venta.value, dias.value)
      && nombre != "" && siembra.Some? && cosecha.Some? && siembra.value <= cosecha.value
      && compra.Some? && venta.Some? && dias.Some? && dias.value >= 0
  {
    if compra.None? || venta.None? || dias.None? then Failure(NumeroInvalido)
    else if dias.value < 0 then Failure(DiasNegativos)
    else if nombre == "" || siembra.None? || cosecha.None? then Failure(FaltanDatos)
    else if cosecha.value < siembra.value then Failure(CosechaAnteriorASiembra)
    else Success(Cultivo(nombre, siembra.value, cosecha.value, notas, zona, compra.value, venta.value, dias.value))
  }

  /** Which mode a successful save ran in. */
  datatype Modo = Agregado | Actualizado

  /** Why a list button did nothing: no row selected, the focused row id is not an
      integer, or it names no entry (`IndexError`). */
  datatype ErrorSeleccion = SinSeleccion | FocoInvalido | FueraDeRango

  datatype Eliminacion = Eliminado(nombre: string) | Cancelada

  class RegistroCultivos {
    var cultivos: seq<Cultivo>
    var seleccionado: Option<nat>

    /** In edit mode the selected index names an entry of the list. */
    ghost predicate Valid()
      reads this
    {
      seleccionado.Some? ==> seleccionado.value < |cultivos|
    }

    /** `AppCultivos.__init__`: add mode, then `cargar_cultivos`. */
    constructor (archivo: Archivo, conv: Conversores)
      ensures Valid() && seleccionado.None?
      ensures cultivos == CargarArchivo(archivo, conv).lista
    {
      var lista: seq<Cultivo> := [];
      if archivo.Contenido? {
        var abortada;
        lista, abortada := CargarLista(archivo.items, conv);
      }
      cultivos := lista;
      seleccionado := None;
    }

    /** `limpiar_campos`: back to add mode. */
    method LimpiarCampos()
      modifies this
      ensures Valid() && seleccionado.None? && cultivos == old(cultivos)
    {
      seleccionado := None;
    }

    /** `manejar_agregar_o_editar`: validate, then append (add mode) or overwrite the
        selected entry (edit mode), then return to add mode. A rejected form changes nothing. */
    method AgregarOEditar(f: Formulario, conv: Conversores) returns (r: Result<Modo, ErrorFormulario>)
      requires Valid()
      modifies this
      ensures Valid()
      ensures r.Failure? <==> Validar(f, conv).Failure?
      ensures r.Failure? ==> r.error == Validar(f, conv).error
      ensures r.Failure? ==> cultivos == old(cultivos) && seleccionado == old(seleccionado)
      ensures r.Success? ==> seleccionado.None?
      ensures r == Success(Agregado) <==> Validar(f, conv).Success? && old(seleccionado).None?
      ensures r == Success(Agregado) ==> cultivos == old(cultivos) + [Validar(f, conv).value]
      ensures r == Success(Actualizado) ==>
        cultivos == old(cultivos)[old(seleccionado).value := Validar(f, conv).value]
    {
      var v := Validar(f, conv);
      if v.Failure? {
        return Failure(v.error);
      }
      if seleccionado.None? {
        cultivos := cultivos + [v.value];
        r := Success(Agregado);
      } else {
        cultivos := cultivos[seleccionado.value := v.value];
        r := Success(Actualizado);
      }
      LimpiarCampos();
    }

    /** `manejar_editar_cultivo`: the focused row's crop goes into the form and the
        application enters edit mode on that index. */
    method EditarSeleccionado(haySeleccion: bool, foco: Option<nat>) returns (r: Result<Cultivo, ErrorSeleccion>)
      requires Valid()
      modifies this
      ensures Valid() && cultivos == old(cultivos)
      ensures r.Success? <==> haySeleccion && foco.Some? && foco.value < |cultivos|
      ensures r.Success? ==> seleccionado == foco && r.value == cultivos[foco.value]
      ensures r.Failure? ==> seleccionado == old(seleccionado)
    {
      if !haySeleccion {
        return Failure(SinSeleccion);
      }
      if foco.None? {
        return Failure(FocoInvalido);
      }
      var indice := foco.value;
      if indice >= |cultivos| {
        return Failure(FueraDeRango);
      }
      seleccionado := Some(indice);
      r := Success(cultivos[indice]);
    }

    /** `manejar_eliminar_cultivo`: after confirmation the focused entry is removed and the
        application returns to add mode; declining changes nothing. */
    method EliminarSeleccionado(haySeleccion: bool, foco: Option<nat>, confirmar: bool)
      returns (r: Result<Eliminacion, ErrorSeleccion>)
      requires Valid()
      modifies this
      ensures Valid()
      ensures r.Success? <==> haySeleccion && foco.Some? && foco.value < |old(cultivos)|
      ensures r.Success? && confirmar ==>
        && r.value == Eliminado(old(cultivos)[foco.value].nombre)
        && cultivos == old(cultivos)[..foco.value] + old(cultivos)[foco.value + 1..]
        && seleccionado.None?
      ensures r.Failure? || !confirmar ==> cultivos == old(cultivos) && seleccionado == old(seleccionado)
    {
      if !haySeleccion {
        return Failure(SinSeleccion);
      }
      if foco.None? {
        return Failure(FocoInvalido);
      }
      var indice := foco.value;
      if indice >= |cultivos| {
        return Failure(FueraDeRango);
      }
      var nombre := cultivos[indice].nombre;
      if confirmar {
        cultivos := cultivos[..indice] + cultivos[indice + 1..];
        LimpiarCampos();
        r := Success(Eliminado(nombre));
      } else {
        r := Success(Cancelada);
      }
    }

    /** `guardar_cultivos`: one dictionary per crop, in order; loading them back restores
        the list. */
    method Guardar(conv: Conversores) returns (datos: seq<Dict>)
      ensures datos == ADicts(cultivos, conv)
      ensures FechasReversibles(conv) ==> CargarItems(datos, conv) == Carga(cultivos, false)
    {
      datos := [];
      for k := 0 to |cultivos|
        invariant datos == ADicts(cultivos[..k], conv)
      {
        assert cultivos[..k + 1][..k] == cultivos[..k];
        datos := datos + [ADict(cultivos[k], conv)];
      }
      assert cultivos[..|cultivos|] == cultivos;
      if FechasReversibles(conv) {
        GuardarYCargar(cultivos, conv);
      }
    }

    /** `calcular_totales_financieros`: total purchase cost and total expected sales. */
    method CalcularTotalesFinancieros() returns (totalCompra: real, totalVenta: real)
      ensures totalCompra == Suma(cultivos, PrecioCompra)
      ensures totalVenta == Suma(cultivos, PrecioVenta)
      ensures totalVenta - totalCompra == Suma(cultivos, Margen)
    {
      totalCompra, totalVenta := 0.0, 0.0;
      for k := 0 to |cultivos|
        invariant totalCompra == Suma(cultivos[..k], PrecioCompra)
        invariant totalVenta == Suma(cultivos[..k], PrecioVenta)
      {
        assert cultivos[..k + 1][..k] == cultivos[..k];
        totalCompra := totalCompra + cultivos[k].precioCompra;
        totalVenta := totalVenta + cultivos[k].precioVenta;
      }
      assert cultivos[..|cultivos|] == cultivos;
      MargenTotal(cultivos);
    }

    /** `revisar_cosechas_al_inicio`: the warning for today's harvests and early alerts. */
    method RevisarCosechasAlInicio(hoy: int) returns (r: Recordatorio)
      ensures r.mensaje == "" <==> CosechasHoy(cultivos, hoy) == [] && AlertasTempranas(cultivos, hoy) == []
      ensures r.titulo == TituloMaximo <==> CosechasHoy(cultivos, hoy) != []
      ensures r.titulo == TituloTemprano <==> CosechasHoy(cultivos, hoy) == [] && AlertasTempranas(cultivos, hoy) != []
    {
      var cosechasHoy, alertas := RevisarCosechas(cultivos, hoy);
      r := ComponerRecordatorio(cosechasHoy, alertas);
    }
  }
}
