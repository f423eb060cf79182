/** `MascotasService`: how the frontend decodes the animal listing it gets
    from the backend, and how it builds the query string of a search. */
module MascotasService {
  import opened Wrappers
  import opened Text
  import opened Models
  import Serializers
  import Views
  import opened Js

  // ---------------------------------------------------------------------
  // transformarAnimal

  /** `{...animal, tamano: animal.tamaño || animal.tamano,
      estado_adopcion: animal.estado || animal.estado_adopcion}`: every
      property of the input is kept, and the two renamed backend fields are
      copied under the frontend's names when they are truthy. Reading a
      property of `null` or `undefined` throws. */
  function TransformarAnimal(v: Value): (r: Result<Value, JsError>)
    ensures r.Err? <==> Nullish(v)
    ensures r.Ok? ==> r.value.Obj?
    ensures r.Ok? ==> r.value.fields.Keys == Spread(v).Keys + {"tamano", "estado_adopcion"}
    ensures r.Ok? ==> forall k :: k in Spread(v) && k != "tamano" && k != "estado_adopcion" ==>
      r.value.fields[k] == Spread(v)[k]
    ensures r.Ok? && Truthy(Get(v, "tamaño")) ==> r.value.fields["tamano"] == Get(v, "tamaño")
    ensures r.Ok? && !Truthy(Get(v, "tamaño")) ==> r.value.fields["tamano"] == Get(v, "tamano")
    ensures r.Ok? && Truthy(Get(v, "estado")) ==> r.value.fields["estado_adopcion"] == Get(v, "estado")
    ensures r.Ok? && !Truthy(Get(v, "estado")) ==> r.value.fields["estado_adopcion"] == Get(v, "estado_adopcion")
  {
    if Nullish(v) then Err(TypeError)
    else
      var tamano := Or(Get(v, "tamaño"), Get(v, "tamano"));
      var estado := Or(Get(v, "estado"), Get(v, "estado_adopcion"));
      Ok(Obj(Spread(v)["tamano" := tamano]["estado_adopcion" := estado]))
  }

  /** Only objects carry the names the transform reads: the spread of any
      other value has index names, made of digits. */
  lemma SpreadHasNoNames(v: Value)
    requires !Nullish(v)
    ensures forall k :: k in Spread(v) && !AllDigits(k) ==> Get(Obj(Spread(v)), k) == Get(v, k)
  {
  }

  /** Transforming an already transformed animal changes nothing. */
  lemma TransformarIdempotent(v: Value)
    requires !Nullish(v)
    ensures TransformarAnimal(TransformarAnimal(v).value) == TransformarAnimal(v)
  {
    var t := TransformarAnimal(v).value;
    SpreadHasNoNames(v);
    assert !AllDigits("tamaño") by { assert !IsDigit("tamaño"[0]); }
    assert !AllDigits("estado") by { assert !IsDigit("estado"[0]); }
    assert Get(t, "tamaño") == Get(v, "tamaño");
    assert Get(t, "estado") == Get(v, "estado");
    assert t.fields == Spread(t)["tamano" := t.fields["tamano"]]["estado_adopcion" := t.fields["estado_adopcion"]];
  }

  /** `items.map(transformarAnimal)`: the first element that throws aborts the map. */
  function MapTransform(items: seq<Value>): (r: Result<seq<Value>, JsError>)
    ensures r.Ok? <==> forall i :: 0 <= i < |items| ==> !Nullish(items[i])
    ensures r.Ok? ==> |r.value| == |items|
    ensures r.Ok? ==> forall i :: 0 <= i < |items| ==> TransformarAnimal(items[i]) == Ok(r.value[i])
  {
    if items == [] then Ok([])
    else
      match TransformarAnimal(items[0])
      case Err(e) => Err(e)
      case Ok(first) =>
        match MapTransform(items[1..])
        case Err(e) => Err(e)
        case Ok(rest) => Ok([first] + rest)
  }

  // ---------------------------------------------------------------------
  // procesarRespuestaAnimales

  /** The array a response carries under `name`, when it is an object with one. */
  predicate HasArray(response: Value, name: string) {
    response.Obj? && name in response.fields && response.fields[name].Arr?
  }

  /** `procesarRespuestaAnimales`: a bare array first, then a `results`
      array, then a `data` array, each mapped through the transform;
      anything else is the empty list. */
  function ProcesarRespuesta(response: Value): (r: Result<seq<Value>, JsError>)
    ensures response.Arr? ==> r == MapTransform(response.items)
    ensures !response.Arr? && HasArray(response, "results") ==>
      r == MapTransform(response.fields["results"].items)
    ensures !response.Arr? && !HasArray(response, "results") && HasArray(response, "data") ==>
      r == MapTransform(response.fields["data"].items)
    ensures !response.Arr? && !HasArray(response, "results") && !HasArray(response, "data") ==> r == Ok([])
  {
    if response.Arr? then MapTransform(response.items)
    else if Truthy(response) && Truthy(Get(response, "results")) && Get(response, "results").Arr? then
      MapTransform(Get(response, "results").items)
    else if Truthy(response) && Truthy(Get(response, "data")) && Get(response, "data").Arr? then
      MapTransform(Get(response, "data").items)
    else Ok([])
  }

  /** Decoding what was decoded gives it back: a decoded list is an array
      of transformed animals, which the transform leaves alone. */
  lemma {:induction false} ProcesarIdempotent(response: Value)
    requires ProcesarRespuesta(response).Ok?
    ensures ProcesarRespuesta(Arr(ProcesarRespuesta(response).value)) == ProcesarRespuesta(response)
  {
    var xs := ProcesarRespuesta(response).value;
    forall i | 0 <= i < |xs| ensures TransformarAnimal(xs[i]) == Ok(xs[i]) {
      var src :=
        if response.Arr? then response.items
        else if HasArray(response, "results") then response.fields["results"].items
        else response.fields["data"].items;
      TransformarIdempotent(src[i]);
    }
    MapTransformFixed(xs);
  }

  lemma {:induction false} MapTransformFixed(xs: seq<Value>)
    requires forall i :: 0 <= i < |xs| ==> TransformarAnimal(xs[i]) == Ok(xs[i])
    ensures MapTransform(xs) == Ok(xs)
  {
    if xs != [] {
      MapTransformFixed(xs[1..]);
      assert [xs[0]] + xs[1..] == xs;
    }
  }

  /** A member of a rendered object whose name is unique parses to that
      member's value. */
  lemma ParsedMember(keys: seq<string>, vals: seq<Serializers.Json>, i: nat)
    requires |keys| == |vals| && i < |keys|
    requires forall m :: 0 <= m < |keys| && m != i ==> keys[m] != keys[i]
    ensures FromJson(Serializers.Obj(keys, vals)).Obj?
    ensures keys[i] in FromJson(Serializers.Obj(keys, vals)).fields
    ensures FromJson(Serializers.Obj(keys, vals)).fields[keys[i]] == FromJson(vals[i])
  {
    var j := Serializers.Obj(keys, vals);
    MembersFromUnique(j, |keys|, i);
  }

  /** What `JSON.parse` makes of one row of the listing endpoint's
      `AnimalSimpleSerializer` output: the backend's values under its own
      names. */
  lemma SimpleRowParses(a: Animal)
    ensures FromJson(Serializers.AnimalSimpleJson(a)).Obj?
    ensures var o := FromJson(Serializers.AnimalSimpleJson(a)).fields;
      && "id" in o && o["id"] == Num(a.id)
      && "tamaño" in o && o["tamaño"] == Str(TamanoCode(a.tamano))
      && "estado" in o && o["estado"] == Str(EstadoCode(a.estado))
  {
    var ks := Serializers.AnimalSimpleFields;
    var vs := Serializers.AnimalSimpleVals(a);
    Serializers.SimpleFieldsDistinct();
    ParsedMember(ks, vs, 0);
    ParsedMember(ks, vs, 5);
    ParsedMember(ks, vs, 6);
  }

  /** The listing endpoint's document: one simplified row per animal. */
  function ListingDoc(rows: seq<Animal>): (j: Serializers.Json)
    ensures j.JArr? && |j.items| == |rows|
    ensures forall i :: 0 <= i < |rows| ==> j.items[i] == Serializers.AnimalSimpleJson(rows[i])
  {
    Serializers.JArr(seq(|rows|, i requires 0 <= i < |rows| => Serializers.AnimalSimpleJson(rows[i])))
  }

  /** One parsed row, once transformed, carries the row's key, size and
      adoption state under the frontend's names. */
  predicate ShowsRow(t: Value, a: Animal) {
    && t.Obj?
    && "id" in t.fields && t.fields["id"] == Num(a.id)
    && "tamano" in t.fields && t.fields["tamano"] == Str(TamanoCode(a.tamano))
    && "estado_adopcion" in t.fields && t.fields["estado_adopcion"] == Str(EstadoCode(a.estado))
  }

  lemma RowTransforms(a: Animal)
    ensures !Nullish(FromJson(Serializers.AnimalSimpleJson(a)))
    ensures ShowsRow(TransformarAnimal(FromJson(Serializers.AnimalSimpleJson(a))).value, a)
  {
    SimpleRowParses(a);
  }

  /** The listing the backend renders reaches the page with one animal per
      row, in order, carrying the row's size and adoption state under the
      frontend's names (the backend's codes are never empty, so `||` keeps
      them). */
  lemma ListingDecodes(rows: seq<Animal>)
    ensures ProcesarRespuesta(FromJson(ListingDoc(rows))).Ok?
    ensures var xs := ProcesarRespuesta(FromJson(ListingDoc(rows))).value;
      |xs| == |rows| && forall i :: 0 <= i < |rows| ==> ShowsRow(xs[i], rows[i])
  {
    var doc := ListingDoc(rows);
    var items := FromJson(doc).items;
    forall i | 0 <= i < |rows|
      ensures items[i] == FromJson(Serializers.AnimalSimpleJson(rows[i]))
      ensures !Nullish(items[i])
      ensures ShowsRow(TransformarAnimal(items[i]).value, rows[i])
    {
      RowTransforms(rows[i]);
    }
  }

  /** `getAnimalesDisponibles()` and `buscarAnimales()` as the page sees
      them: the decoded list, or an error when the request failed
      (`response == None`) or decoding threw. */
  datatype Fetched = Emitted(animales: seq<Value>) | Failed

  function Receive(response: Option<Value>): (r: Fetched)
    ensures r.Emitted? <==> response.Some? && ProcesarRespuesta(response.value).Ok?
    ensures r.Emitted? ==> r.animales == ProcesarRespuesta(response.value).value
  {
    match response
    case None => Failed
    case Some(body) =>
      match ProcesarRespuesta(body)
      case Ok(xs) => Emitted(xs)
      case Err(_) => Failed
  }

  // ---------------------------------------------------------------------
  // buscarAnimales

  /** A `URLSearchParams` buffer: name and value pairs in append order. */
  type Params = seq<(string, string)>

  function Names(ps: Params): (ns: seq<string>)
    ensures |ns| == |ps|
    ensures forall i :: 0 <= i < |ps| ==> ns[i] == ps[i].0
  {
    seq(|ps|, i requires 0 <= i < |ps| => ps[i].0)
  }

  lemma NamesAppend(a: Params, b: Params)
    ensures Names(a + b) == Names(a) + Names(b)
  {
  }

  /** What `if (v) params.append(name, v)` adds to the buffer. */
  function Emit(name: string, v: Value): (r: Params)
    ensures Truthy(v) ==> r == [(name, ToJsString(v))]
    ensures !Truthy(v) ==> r == []
  {
    if Truthy(v) then [(name, ToJsString(v))] else []
  }

  /** The parameters `buscarAnimales(filtros)` sends: each truthy filter
      among `tipo_animal`, `tamano` (sent as `tamaño`), `edad_min` and
      `edad_max`, in that order. */
  function SearchParams(filtros: Value): (r: Params)
    requires !Nullish(filtros)
    ensures |r| <= 4
    ensures r == [] <==> (!Truthy(Get(filtros, "tipo_animal")) && !Truthy(Get(filtros, "tamano"))
      && !Truthy(Get(filtros, "edad_min")) && !Truthy(Get(filtros, "edad_max")))
  {
    Emit("tipo_animal", Get(filtros, "tipo_animal")) + Emit("tamaño", Get(filtros, "tamano"))
      + Emit("edad_min", Get(filtros, "edad_min")) + Emit("edad_max", Get(filtros, "edad_max"))
  }

  /** The query-string buffer of `buscarAnimales`, filled one test at a time. */
  method BuscarParams(filtros: Value) returns (params: Params)
    requires !Nullish(filtros)
    ensures params == SearchParams(filtros)
  {
    params := [];
    var tipo := Get(filtros, "tipo_animal");
    if Truthy(tipo) {
      params := params + [("tipo_animal", ToJsString(tipo))];
    }
    var tamano := Get(filtros, "tamano");
    if Truthy(tamano) {
      params := params + [("tamaño", ToJsString(tamano))];
    }
    var edadMin := Get(filtros, "edad_min");
    if Truthy(edadMin) {
      params := params + [("edad_min", ToJsString(edadMin))];
    }
    var edadMax := Get(filtros, "edad_max");
    if Truthy(edadMax) {
      params := params + [("edad_max", ToJsString(edadMax))];
    }
  }

  /** The names the frontend sends, and the ones it never sends, all differ. */
  lemma NamesDiffer()
    ensures "tipo_animal" != "tamaño" && "tipo_animal" != "edad_min" && "tipo_animal" != "edad_max"
    ensures "tamaño" != "edad_min" && "tamaño" != "edad_max" && "edad_min" != "edad_max"
    ensures forall n :: n in ["estado", "urgente", "tamano"] ==>
      n != "tipo_animal" && n != "tamaño" && n != "edad_min" && n != "edad_max"
  {
  }

  /** The names of the parameters sent, one block per filter. */
  lemma SearchNames(filtros: Value)
    requires !Nullish(filtros)
    ensures Names(SearchParams(filtros))
      == (if Truthy(Get(filtros, "tipo_animal")) then ["tipo_animal"] else [])
       + (if Truthy(Get(filtros, "tamano")) then ["tamaño"] else [])
       + (if Truthy(Get(filtros, "edad_min")) then ["edad_min"] else [])
       + (if Truthy(Get(filtros, "edad_max")) then ["edad_max"] else [])
  {
    var e0 := Emit("tipo_animal", Get(filtros, "tipo_animal"));
    var e1 := Emit("tamaño", Get(filtros, "tamano"));
    var e2 := Emit("edad_min", Get(filtros, "edad_min"));
    var e3 := Emit("edad_max", Get(filtros, "edad_max"));
    NamesAppend(e0, e1);
    NamesAppend(e0 + e1, e2);
    NamesAppend(e0 + e1 + e2, e3);
  }

  /** A filter is sent exactly when it is truthy (so a numeric 0 or an
      empty string is dropped), and `estado` and `urgente` are never sent. */
  lemma SearchParamsSent(filtros: Value)
    requires !Nullish(filtros)
    ensures var ns := Names(SearchParams(filtros));
      && ("tipo_animal" in ns <==> Truthy(Get(filtros, "tipo_animal")))
      && ("tamaño" in ns <==> Truthy(Get(filtros, "tamano")))
      && ("edad_min" in ns <==> Truthy(Get(filtros, "edad_min")))
      && ("edad_max" in ns <==> Truthy(Get(filtros, "edad_max")))
      && "estado" !in ns && "urgente" !in ns && "tamano" !in ns
  {
    SearchNames(filtros);
    NamesDiffer();
  }

  /** The names appear at most once each, in the fixed order `tipo_animal`,
      `tamaño`, `edad_min`, `edad_max`. */
  lemma SearchParamsOrdered(filtros: Value)
    requires !Nullish(filtros)
    ensures var ns := Names(SearchParams(filtros));
      forall i, j :: 0 <= i < j < |ns| ==> Rank(ns[i]) < Rank(ns[j])
  {
    SearchNames(filtros);
  }

  function Rank(name: string): nat {
    if name == "tipo_animal" then 0
    else if name == "tamaño" then 1
    else if name == "edad_min" then 2
    else 3
  }

  /** `request.query_params.get(name)` on the sent parameters: the value
      of the last parameter with that name, if any. */
  function LastValue(ps: Params, name: string): (r: Option<string>)
    ensures r.Some? <==> name in Names(ps)
    ensures r.Some? ==> (name, r.value) in ps
  {
    if ps == [] then None
    else if ps[|ps| - 1].0 == name then Some(ps[|ps| - 1].1)
    else
      assert Names(ps) == Names(ps[..|ps| - 1]) + [ps[|ps| - 1].0];
      LastValue(ps[..|ps| - 1], name)
  }

  /** The query parameters the backend reads from a sent query string. */
  function ParamsToQuery(ps: Params): Views.QueryParams {
    Views.QueryParams(LastValue(ps, "estado"), LastValue(ps, "tipo_animal"), LastValue(ps, "tamaño"),
                      LastValue(ps, "edad_min"), LastValue(ps, "edad_max"), LastValue(ps, "urgente"))
  }

  /** An age filter given as a number, or left falsy. */
  predicate AgeOrAbsent(v: Value) {
    v.Num? || !Truthy(v)
  }

  /** Every parameter sent is one of the four filters with its value. */
  lemma SentValues(filtros: Value)
    requires !Nullish(filtros)
    ensures forall p :: p in SearchParams(filtros) ==>
      || p == ("tipo_animal", ToJsString(Get(filtros, "tipo_animal")))
      || p == ("tamaño", ToJsString(Get(filtros, "tamano")))
      || p == ("edad_min", ToJsString(Get(filtros, "edad_min")))
      || p == ("edad_max", ToJsString(Get(filtros, "edad_max")))
  {
  }

  /** The backend reads back each filter sent, as `String(value)`, and
      nothing for the filters the frontend does not send. */
  lemma SearchQuery(filtros: Value)
    requires !Nullish(filtros)
    ensures var q := ParamsToQuery(SearchParams(filtros));
      && q.estado == None && q.urgente == None
      && q.tipoAnimal == (if Truthy(Get(filtros, "tipo_animal")) then Some(ToJsString(Get(filtros, "tipo_animal"))) else None)
      && q.tamano == (if Truthy(Get(filtros, "tamano")) then Some(ToJsString(Get(filtros, "tamano"))) else None)
      && q.edadMin == (if Truthy(Get(filtros, "edad_min")) then Some(ToJsString(Get(filtros, "edad_min"))) else None)
      && q.edadMax == (if Truthy(Get(filtros, "edad_max")) then Some(ToJsString(Get(filtros, "edad_max"))) else None)
  {
    SearchParamsSent(filtros);
    SentValues(filtros);
    NamesDiffer();
  }

  /** What the backend makes of a search's text filters: each arrives as
      `String(value)` and is ignored when that is empty (as for an empty
      array), and the state and urgency filters never arrive. */
  lemma SearchTextReachesBackend(filtros: Value)
    requires !Nullish(filtros)
    requires AgeOrAbsent(Get(filtros, "edad_min")) && AgeOrAbsent(Get(filtros, "edad_max"))
    ensures var c := Views.ToCriteria(ParamsToQuery(SearchParams(filtros)));
      && c.Ok?
      && c.value.estado == None && !c.value.urgente
      && (c.value.tipoAnimal.Some? <==> Truthy(Get(filtros, "tipo_animal")) && ToJsString(Get(filtros, "tipo_animal")) != "")
      && (c.value.tipoAnimal.Some? ==> c.value.tipoAnimal.value == ToJsString(Get(filtros, "tipo_animal")))
      && (c.value.tamano.Some? <==> Truthy(Get(filtros, "tamano")) && ToJsString(Get(filtros, "tamano")) != "")
      && (c.value.tamano.Some? ==> c.value.tamano.value == ToJsString(Get(filtros, "tamano")))
  {
    SearchAgesReachBackend(filtros);
    SearchQuery(filtros);
  }

  /** What the backend makes of a search's ages: a number always converts
      back to itself, and 0, being falsy, means no bound. */
  lemma SearchAgesReachBackend(filtros: Value)
    requires !Nullish(filtros)
    requires AgeOrAbsent(Get(filtros, "edad_min")) && AgeOrAbsent(Get(filtros, "edad_max"))
    ensures var c := Views.ToCriteria(ParamsToQuery(SearchParams(filtros)));
      && c.Ok?
      && (c.value.edadMin.Some? <==> Truthy(Get(filtros, "edad_min")))
      && (c.value.edadMin.Some? ==> Get(filtros, "edad_min") == Num(c.value.edadMin.value))
      && (c.value.edadMax.Some? <==> Truthy(Get(filtros, "edad_max")))
      && (c.value.edadMax.Some? ==> Get(filtros, "edad_max") == Num(c.value.edadMax.value))
  {
    SearchQuery(filtros);
    var lo := Get(filtros, "edad_min");
    var hi := Get(filtros, "edad_max");
    if Truthy(lo) {
      ParseIntString(lo.n);
    }
    if Truthy(hi) {
      ParseIntString(hi.n);
    }
  }
}
