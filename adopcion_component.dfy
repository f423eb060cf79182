/** The adoption page: the list it shows (`animales`), its spinner
    (`loading`) and its message line (`error`), driven by the outcomes of
    the requests it makes, with a built-in sample list to fall back on. */
module Adopcion {
  import opened Text
  import opened Js
  import Seqs
  import opened MascotasService

  const NoAnimalsMsg := "Mostrando datos de ejemplo (no hay animales en el servidor)"
  const ConnectionMsg := "No se pudo conectar con el servidor. Mostrando datos de ejemplo."
  const FilterErrorMsg := "Error al filtrar. Usando datos locales."
  const NoUrgentMsg := "Mostrando datos de ejemplo (sin conexión con servidor)"
  const UrgentErrorMsg := "Error de conexión. Mostrando datos de ejemplo."

  /** One entry of the sample list, with the fields the page's `Animal` has. */
  function Ejemplo(id: int, nombre: string, raza: string, edad: int, tipo: string, tamano: string,
                   sexo: string, urgente: bool, descripcion: string): (v: Value)
    ensures v.Obj?
    ensures "tipo_animal" in v.fields && v.fields["tipo_animal"] == Str(tipo)
    ensures "urgente" in v.fields && v.fields["urgente"] == Bool(urgente)
    ensures "nombre" in v.fields && v.fields["nombre"] == Str(nombre)
  {
    Obj(map[
      "id" := Num(id), "nombre" := Str(nombre), "raza" := Str(raza), "edad" := Num(edad),
      "tipo_animal" := Str(tipo), "tamano" := Str(tamano), "sexo" := Str(sexo),
      "estado_adopcion" := Str("disponible"), "urgente" := Bool(urgente),
      "foto_principal" := Str("/mix/perro_ejem.jpg"), "descripcion" := Str(descripcion),
      "esterilizado" := Bool(true), "vacunado" := Bool(true), "chip" := Bool(true)])
  }

  /** `datosEjemplo`: the three sample dogs; only Negu is urgent. */
  const DatosEjemplo: seq<Value> := [
    Ejemplo(1, "Paco", "Labrador", 5, "perro", "grande", "macho", false, "Perro muy cariñoso y juguetón"),
    Ejemplo(2, "Negu", "Pug", 2, "perro", "pequeño", "hembra", true, "Necesita familia urgente"),
    Ejemplo(3, "Luna", "Pastor Alemán", 3, "perro", "grande", "hembra", false, "Muy obediente y leal")
  ]

  /** The sample entries' types and urgency. */
  lemma SampleFields()
    ensures |DatosEjemplo| == 3
    ensures forall i :: 0 <= i < 3 ==> !Nullish(DatosEjemplo[i]) && Get(DatosEjemplo[i], "tipo_animal") == Str("perro")
    ensures Get(DatosEjemplo[0], "urgente") == Bool(false)
    ensures Get(DatosEjemplo[1], "urgente") == Bool(true)
    ensures Get(DatosEjemplo[2], "urgente") == Bool(false)
  {
  }

  /** `animal.urgente`, read as a condition. */
  predicate Urgente(v: Value) {
    !Nullish(v) && Truthy(Get(v, "urgente"))
  }

  function UrgenteFn(): Value -> bool {
    (v: Value) => Urgente(v)
  }

  /** `animal.tipo_animal.toLowerCase() === tipo.toLowerCase()`. */
  predicate TipoIs(tipo: string, v: Value) {
    !Nullish(v) && Get(v, "tipo_animal").Str? && ToLower(Get(v, "tipo_animal").s) == ToLower(tipo)
  }

  function TipoFn(tipo: string): Value -> bool {
    (v: Value) => TipoIs(tipo, v)
  }

  /** The local fallback of `filtrarPorTipo`: the sample entries of that
      type, compared without case, in their original order. */
  function LocalesPorTipo(tipo: string): (r: seq<Value>)
    ensures forall v :: v in r <==> v in DatosEjemplo && TipoIs(tipo, v)
  {
    Seqs.Filter(TipoFn(tipo), DatosEjemplo)
  }

  /** The local fallback of `filtrarPorUrgencia`. */
  function UrgentesLocales(): (r: seq<Value>)
    ensures forall v :: v in r <==> v in DatosEjemplo && Urgente(v)
  {
    Seqs.Filter(UrgenteFn(), DatosEjemplo)
  }

  /** A dog passes the type filter exactly when the type asked for is
      "perro" in some letter case. */
  lemma DogTipo(tipo: string, v: Value)
    requires !Nullish(v) && Get(v, "tipo_animal") == Str("perro")
    ensures TipoIs(tipo, v) <==> ToLower(tipo) == "perro"
  {
    ToLowerNoUpper("perro");
  }

  /** Every sample entry is a dog: asking for dogs in any letter case gives
      the whole sample list, and asking for anything else gives nothing. */
  lemma LocalesPorTipoCases(tipo: string)
    ensures ToLower(tipo) == "perro" ==> LocalesPorTipo(tipo) == DatosEjemplo
    ensures ToLower(tipo) != "perro" ==> LocalesPorTipo(tipo) == []
  {
    var d := DatosEjemplo;
    SampleFields();
    DogTipo(tipo, d[0]);
    DogTipo(tipo, d[1]);
    DogTipo(tipo, d[2]);
    Seqs.FilterThree(TipoFn(tipo), d);
  }

  /** The sample list holds exactly one urgent animal, Negu, so the
      "no urgent animals" alert of `filtrarPorUrgencia` is never reached. */
  lemma SampleHasUrgent()
    ensures UrgentesLocales() == [DatosEjemplo[1]]
  {
    SampleFields();
    Seqs.FilterThree(UrgenteFn(), DatosEjemplo);
  }

  /** The urgent fallback is never empty, and shows only urgent animals. */
  lemma UrgentesLocalesShown()
    ensures |UrgentesLocales()| > 0
    ensures forall i :: 0 <= i < |UrgentesLocales()| ==> Urgente(UrgentesLocales()[i])
  {
    SampleHasUrgent();
  }

  /** What `filtrarPorUrgencia` shows once the list arrives: its urgent
      animals, or the sample's when it has none. Either way the page shows
      at least one animal, and only urgent ones. */
  function UrgentView(animales: seq<Value>): (r: seq<Value>)
    ensures |r| > 0
    ensures forall i :: 0 <= i < |r| ==> Urgente(r[i])
  {
    var urgentes := Seqs.Filter(UrgenteFn(), animales);
    UrgentesLocalesShown();
    if |urgentes| > 0 then urgentes else UrgentesLocales()
  }

  /** `{tipo_animal: tipo}`, the filter object `filtrarPorTipo` sends. */
  function TipoFiltro(tipo: string): Value {
    Obj(map["tipo_animal" := Str(tipo)])
  }

  /** Filtering by type sends exactly one parameter, the type itself, unless
      the type is empty, when it sends none. */
  lemma TipoFiltroParams(tipo: string)
    ensures SearchParams(TipoFiltro(tipo)) == if tipo != "" then [("tipo_animal", tipo)] else []
  {
    var f := TipoFiltro(tipo);
    assert Get(f, "tipo_animal") == Str(tipo);
    assert Get(f, "tamano") == Undefined && Get(f, "edad_min") == Undefined && Get(f, "edad_max") == Undefined;
  }

  class AdopcionComponent {
    var animales: seq<Value>
    var loading: bool
    var error: string

    constructor()
      ensures animales == [] && loading && error == ""
    {
      animales := [];
      loading := true;
      error := "";
    }

    /** `cargarAnimales`, up to the request for the whole listing. */
    method CargarAnimales()
      modifies this
      ensures loading && error == ""
      ensures animales == old(animales)
    {
      loading := true;
      error := "";
    }

    /** The success callback of `cargarAnimales`: a non-empty list is shown
        as it came; an empty one shows the sample list with a message. */
    method CargarAnimalesNext(recibidos: seq<Value>)
      modifies this
      ensures !loading
      ensures |recibidos| > 0 ==> animales == recibidos && error == old(error)
      ensures |recibidos| == 0 ==> animales == DatosEjemplo && error == NoAnimalsMsg
      ensures |animales| > 0
    {
      if |recibidos| > 0 {
        animales := recibidos;
      } else {
        animales := DatosEjemplo;
        error := NoAnimalsMsg;
      }
      loading := false;
    }

    /** The error callback of `cargarAnimales`: the sample list, with the
        connection message. */
    method CargarAnimalesError()
      modifies this
      ensures !loading
      ensures animales == DatosEjemplo && error == ConnectionMsg
    {
      error := ConnectionMsg;
      animales := DatosEjemplo;
      loading := false;
    }

    /** `filtrarPorTipo`, up to the request: the spinner goes on (the
        message line is left as it was) and the search sends the type. */
    method FiltrarPorTipo(tipo: string) returns (params: Params)
      modifies this
      ensures loading && error == old(error) && animales == old(animales)
      ensures params == SearchParams(TipoFiltro(tipo))
    {
      loading := true;
      params := BuscarParams(TipoFiltro(tipo));
    }

    /** The success callback of `filtrarPorTipo`: a non-empty answer is
        shown as it came, an empty one is replaced by the matching sample
        entries; the message line is left as it was. */
    method FiltrarPorTipoNext(tipo: string, recibidos: seq<Value>)
      modifies this
      ensures !loading && error == old(error)
      ensures |recibidos| > 0 ==> animales == recibidos
      ensures |recibidos| == 0 ==> animales == LocalesPorTipo(tipo)
    {
      animales := recibidos;
      loading := false;
      if |recibidos| == 0 {
        animales := LocalesPorTipo(tipo);
      }
    }

    /** The error callback of `filtrarPorTipo`: the matching sample entries,
        with the filter message. */
    method FiltrarPorTipoError(tipo: string)
      modifies this
      ensures !loading
      ensures animales == LocalesPorTipo(tipo) && error == FilterErrorMsg
    {
      error := FilterErrorMsg;
      animales := LocalesPorTipo(tipo);
      loading := false;
    }

    /** `filtrarPorUrgencia`, up to the request for the whole listing. */
    method FiltrarPorUrgencia()
      modifies this
      ensures loading && error == ""
      ensures animales == old(animales)
    {
      loading := true;
      error := "";
    }

    /** The success callback of `filtrarPorUrgencia`: the urgent animals of
        the answer, or else the sample's urgent ones with a message. The
        page then shows only urgent animals, and at least one. */
    method FiltrarPorUrgenciaNext(recibidos: seq<Value>)
      modifies this
      ensures !loading
      ensures animales == UrgentView(recibidos)
      ensures |Seqs.Filter(UrgenteFn(), recibidos)| > 0 ==> error == old(error)
      ensures |Seqs.Filter(UrgenteFn(), recibidos)| == 0 ==> error == NoUrgentMsg
      ensures |animales| > 0 && forall i :: 0 <= i < |animales| ==> Urgente(animales[i])
    {
      var urgentes := Seqs.Filter(UrgenteFn(), recibidos);
      animales := urgentes;
      loading := false;
      if |urgentes| == 0 {
        var locales := UrgentesLocales();
        UrgentesLocalesShown();
        if |locales| > 0 {
          animales := locales;
          error := NoUrgentMsg;
        } else {
          // The alert and reload: the sample list always has an urgent animal.
          assert false;
        }
      }
    }

    /** The error callback of `filtrarPorUrgencia`: the sample's urgent
        animals, with the connection message. */
    method FiltrarPorUrgenciaError()
      modifies this
      ensures !loading
      ensures animales == UrgentesLocales() && error == UrgentErrorMsg
    {
      var locales := UrgentesLocales();
      UrgentesLocalesShown();
      animales := locales;
      error := UrgentErrorMsg;
      loading := false;
      if |locales| == 0 {
        // The alert and reload: the sample list always has an urgent animal.
        assert false;
      }
    }
  }
}
