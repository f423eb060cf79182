/** The read side of the REST API: the animal catalogue query with its
    optional filters, the two fixed catalogue views, the event listings,
    the adoption-request endpoint and the permission rule of the
    read-write viewsets. */
module Views {
  import opened Wrappers
  import opened Text
  import opened Models
  import opened Serializers
  import Seqs

  // ---------------------------------------------------------------------
  // AnimalViewSet.get_queryset
  // ---------------------------------------------------------------------

  /** `request.query_params.get(name, None)` for the six catalogue filters;
      `None` is a parameter that was not sent. */
  datatype QueryParams = QueryParams(
    estado: Option<string>,
    tipoAnimal: Option<string>,
    tamano: Option<string>,
    edadMin: Option<string>,
    edadMax: Option<string>,
    urgente: Option<string>)

  const NoParams := QueryParams(None, None, None, None, None, None)

  /** Python truthiness of a parameter: sent and not the empty string. */
  predicate Given(p: Option<string>) {
    p.Some? && p.value != ""
  }

  /** The filters the query applies, once the ages are converted to integers. */
  datatype Criteria = Criteria(
    estado: Option<string>,
    tipoAnimal: Option<string>,
    tamano: Option<string>,
    edadMin: Option<int>,
    edadMax: Option<int>,
    urgente: bool)

  /** `IntegerField.get_prep_value` rejects an age that `int()` cannot read;
      the request then fails with a server error. */
  datatype QueryError = BadNumber(param: string, value: string)

  function TextFilter(p: Option<string>): (r: Option<string>)
    ensures r.Some? <==> Given(p)
    ensures r.Some? ==> r.value == p.value
  {
    if Given(p) then p else None
  }

  function AgeFilter(name: string, p: Option<string>): (r: Result<Option<int>, QueryError>)
    ensures r.Err? <==> Given(p) && ParseInt(p.value).None?
    ensures r.Ok? ==> (r.value.Some? <==> Given(p))
    ensures r.Ok? && r.value.Some? ==> ParseInt(p.value) == r.value
  {
    if !Given(p) then Ok(None)
    else match ParseInt(p.value)
      case Some(v) => Ok(Some(v))
      case None => Err(BadNumber(name, p.value))
  }

  /** The chain of `if param:` tests of `get_queryset`, in source order. */
  function ToCriteria(q: QueryParams): (r: Result<Criteria, QueryError>)
    ensures r.Ok? <==> (Given(q.edadMin) ==> ParseInt(q.edadMin.value).Some?)
                       && (Given(q.edadMax) ==> ParseInt(q.edadMax.value).Some?)
    ensures r.Err? && Given(q.edadMin) && ParseInt(q.edadMin.value).None? ==> r.error.param == "edad_min"
  {
    var lo := AgeFilter("edad_min", q.edadMin);
    var hi := AgeFilter("edad_max", q.edadMax);
    if lo.Err? then Err(lo.error)
    else if hi.Err? then Err(hi.error)
    else Ok(Criteria(TextFilter(q.estado), TextFilter(q.tipoAnimal), TextFilter(q.tamano),
                     lo.value, hi.value, Given(q.urgente)))
  }

  /** A row the filtered queryset keeps: visible, and equal to or within
      every filter that applies. Both age bounds are inclusive. */
  predicate Matches(c: Criteria, a: Animal) {
    && a.visible
    && (c.estado.Some? ==> EstadoCode(a.estado) == c.estado.value)
    && (c.tipoAnimal.Some? ==> TipoAnimalCode(a.tipoAnimal) == c.tipoAnimal.value)
    && (c.tamano.Some? ==> TamanoCode(a.tamano) == c.tamano.value)
    && (c.edadMin.Some? ==> a.edad >= c.edadMin.value)
    && (c.edadMax.Some? ==> a.edad <= c.edadMax.value)
    && (c.urgente ==> a.urgente)
  }

  function MatchesFn(c: Criteria): Animal -> bool {
    (a: Animal) => Matches(c, a)
  }

  /** The filtered queryset under `order_by('-urgente', '-created_at')`. */
  function Listed(db: seq<Animal>, c: Criteria): seq<Animal> {
    Seqs.Sort(ListedBefore, Seqs.Filter(MatchesFn(c), db))
  }

  /** `GET /api/animales/`: the rows of `get_queryset`, or the conversion error. */
  function Query(db: seq<Animal>, q: QueryParams): (r: Result<seq<Animal>, QueryError>)
    ensures r.Ok? <==> ToCriteria(q).Ok?
  {
    match ToCriteria(q)
    case Ok(c) => Ok(Listed(db, c))
    case Err(e) => Err(e)
  }

  /** What it means for `a` to pass the filters sent in `q`. */
  predicate Selected(q: QueryParams, a: Animal) {
    && a.visible
    && (Given(q.estado) ==> EstadoCode(a.estado) == q.estado.value)
    && (Given(q.tipoAnimal) ==> TipoAnimalCode(a.tipoAnimal) == q.tipoAnimal.value)
    && (Given(q.tamano) ==> TamanoCode(a.tamano) == q.tamano.value)
    && (Given(q.edadMin) ==> ParseInt(q.edadMin.value).Some? && a.edad >= ParseInt(q.edadMin.value).value)
    && (Given(q.edadMax) ==> ParseInt(q.edadMax.value).Some? && a.edad <= ParseInt(q.edadMax.value).value)
    && (Given(q.urgente) ==> a.urgente)
  }

  lemma CriteriaSelect(q: QueryParams, a: Animal)
    requires ToCriteria(q).Ok?
    ensures Matches(ToCriteria(q).value, a) <==> Selected(q, a)
  {
  }

  /** The list query returns exactly the visible animals passing every filter
      sent (soundness and completeness), each as often as it is stored. */
  lemma QueryExact(db: seq<Animal>, q: QueryParams)
    requires ToCriteria(q).Ok?
    ensures forall a :: a in Query(db, q).value <==> a in db && Selected(q, a)
    ensures multiset(Query(db, q).value) == multiset(Seqs.Filter(MatchesFn(ToCriteria(q).value), db))
  {
    var c := ToCriteria(q).value;
    var r := Query(db, q).value;
    var f := Seqs.Filter(MatchesFn(c), db);
    forall a ensures a in r <==> a in db && Selected(q, a) {
      assert a in r <==> a in multiset(r);
      assert a in f <==> a in multiset(f);
      CriteriaSelect(q, a);
    }
  }

  /** The list query is ordered urgent first, then newest first. */
  lemma QuerySorted(db: seq<Animal>, q: QueryParams)
    requires ToCriteria(q).Ok?
    ensures Seqs.SortedBy(ListedBefore, Query(db, q).value)
    ensures forall i, j :: 0 <= i < j < |Query(db, q).value| && Query(db, q).value[j].urgente ==>
      Query(db, q).value[i].urgente
    ensures forall i, j :: (0 <= i < j < |Query(db, q).value|
      && Query(db, q).value[i].urgente == Query(db, q).value[j].urgente) ==>
      Query(db, q).value[i].createdAt >= Query(db, q).value[j].createdAt
  {
    ListedBeforeTotal();
    Seqs.SortSorted(ListedBefore, Seqs.Filter(MatchesFn(ToCriteria(q).value), db));
  }

  /** An empty parameter is not a filter. */
  function Normalize(q: QueryParams): (n: QueryParams)
    ensures n.estado.Some? <==> Given(q.estado)
    ensures n.tipoAnimal.Some? <==> Given(q.tipoAnimal)
    ensures n.tamano.Some? <==> Given(q.tamano)
    ensures n.edadMin.Some? <==> Given(q.edadMin)
    ensures n.edadMax.Some? <==> Given(q.edadMax)
    ensures n.urgente.Some? <==> Given(q.urgente)
    ensures n.estado.Some? ==> n.estado == q.estado
    ensures n.tipoAnimal.Some? ==> n.tipoAnimal == q.tipoAnimal
    ensures n.tamano.Some? ==> n.tamano == q.tamano
    ensures n.edadMin.Some? ==> n.edadMin == q.edadMin
    ensures n.edadMax.Some? ==> n.edadMax == q.edadMax
    ensures n.urgente.Some? ==> n.urgente == q.urgente
  {
    QueryParams(TextFilter(q.estado), TextFilter(q.tipoAnimal), TextFilter(q.tamano),
                TextFilter(q.edadMin), TextFilter(q.edadMax), TextFilter(q.urgente))
  }

  /** Sending a parameter empty is the same as not sending it. */
  lemma EmptyParamIgnored(db: seq<Animal>, q: QueryParams)
    ensures Query(db, q) == Query(db, Normalize(q))
  {
    assert ToCriteria(q) == ToCriteria(Normalize(q));
  }

  /** Any non-empty `urgente`, `"false"` included, restricts the list to
      urgent animals exactly as `"true"` does. */
  lemma UrgenteAnyValue(db: seq<Animal>, q: QueryParams, v: string)
    requires v != ""
    ensures Query(db, q.(urgente := Some(v))) == Query(db, q.(urgente := Some("true")))
    ensures Query(db, q.(urgente := Some("false"))).Ok? ==>
      forall a :: a in Query(db, q.(urgente := Some("false"))).value ==> a.urgente
  {
    assert ToCriteria(q.(urgente := Some(v))) == ToCriteria(q.(urgente := Some("true")));
    var qf := q.(urgente := Some("false"));
    if ToCriteria(qf).Ok? {
      QueryExact(db, qf);
    }
  }

  /** With integer bounds `lo` and `hi`, an animal of age `lo` or `hi` is
      listed: both bounds are inclusive. */
  lemma AgeBoundsInclusive(db: seq<Animal>, lo: int, hi: int)
    ensures var q := NoParams.(edadMin := Some(IntString(lo)), edadMax := Some(IntString(hi)));
      && Query(db, q).Ok?
      && forall a :: a in Query(db, q).value <==> a in db && a.visible && lo <= a.edad <= hi
  {
    var q := NoParams.(edadMin := Some(IntString(lo)), edadMax := Some(IntString(hi)));
    ParseIntString(lo);
    ParseIntString(hi);
    QueryExact(db, q);
  }

  /** `get_object()`: the row of the filtered queryset with primary key
      `id`, so an invisible or filtered-out animal is not found. */
  function Lookup(db: seq<Animal>, q: QueryParams, id: nat): (r: Result<Option<Animal>, QueryError>)
    ensures r.Ok? <==> ToCriteria(q).Ok?
  {
    match Query(db, q)
    case Ok(rows) => Ok(FindAnimal(rows, id))
    case Err(e) => Err(e)
  }

  /** The detail lookup finds an animal exactly when one with that key passes
      the filters, and what it finds is such an animal. */
  lemma LookupExact(db: seq<Animal>, q: QueryParams, id: nat)
    requires ToCriteria(q).Ok?
    ensures Lookup(db, q, id).value.Some? <==> exists a :: a in db && a.id == id && Selected(q, a)
    ensures Lookup(db, q, id).value.Some? ==>
      (var a := Lookup(db, q, id).value.value; a in db && a.id == id && Selected(q, a))
  {
    QueryExact(db, q);
  }

  // ---------------------------------------------------------------------
  // disponibles / urgentes
  // ---------------------------------------------------------------------

  predicate Available(a: Animal) {
    a.estado == Disponible && a.visible
  }

  predicate UrgentAvailable(a: Animal) {
    a.urgente && a.estado == Disponible && a.visible
  }

  /** `GET /api/animales/disponibles/`, under the model's default ordering. */
  function Disponibles(db: seq<Animal>): (r: seq<Animal>)
    ensures forall a :: a in r <==> a in db && a.visible && a.estado == Disponible
    ensures Seqs.SortedBy(ListedBefore, r)
  {
    var d := Seqs.Filter((a: Animal) => Available(a), db);
    var r := Seqs.Sort(ListedBefore, d);
    SortedPermutation(d, r);
    r
  }

  /** `GET /api/animales/urgentes/`, under the model's default ordering. */
  function Urgentes(db: seq<Animal>): (r: seq<Animal>)
    ensures forall a :: a in r <==> a in db && a.visible && a.estado == Disponible && a.urgente
    ensures Seqs.SortedBy(ListedBefore, r)
  {
    var u := Seqs.Filter((a: Animal) => UrgentAvailable(a), db);
    var r := Seqs.Sort(ListedBefore, u);
    SortedPermutation(u, r);
    r
  }

  /** Ordering rows under the default ordering keeps exactly the same rows. */
  lemma SortedPermutation(s: seq<Animal>, r: seq<Animal>)
    requires r == Seqs.Sort(ListedBefore, s)
    ensures forall a :: a in r <==> a in s
    ensures Seqs.SortedBy(ListedBefore, r)
  {
    forall a ensures a in r <==> a in s {
      assert a in r <==> a in multiset(r);
      assert a in s <==> a in multiset(s);
    }
    ListedBeforeTotal();
    Seqs.SortSorted(ListedBefore, s);
  }

  /** `disponibles` is the list query with only `estado=disponible` sent. */
  lemma DisponiblesIsQuery(db: seq<Animal>)
    ensures Query(db, NoParams.(estado := Some("disponible"))) == Ok(Disponibles(db))
  {
    var c := ToCriteria(NoParams.(estado := Some("disponible"))).value;
    forall i | 0 <= i < |db| ensures MatchesFn(c)(db[i]) == Available(db[i]) {
      ChoiceCodesRoundTrip(Perro, db[i].estado, Mediano, Macho, Adopcion);
    }
    Seqs.FilterCongruent(MatchesFn(c), (a: Animal) => Available(a), db);
  }

  /** `urgentes` is `disponibles` cut down to the urgent animals, in the same order. */
  lemma UrgentesOfDisponibles(db: seq<Animal>)
    ensures Urgentes(db) == Seqs.Filter((a: Animal) => a.urgente, Disponibles(db))
  {
    var urgent := (a: Animal) => a.urgente;
    var avail := (a: Animal) => Available(a);
    ListedBeforeTotal();
    Seqs.SortFilter(ListedBefore, urgent, Seqs.Filter(avail, db));
    Seqs.FilterFilter(urgent, avail, (a: Animal) => UrgentAvailable(a), db);
  }

  /** Both fixed views list every qualifying animal exactly once per row, in order. */
  lemma FixedViewsExact(db: seq<Animal>)
    ensures forall a :: a in Disponibles(db) <==> a in db && a.visible && a.estado == Disponible
    ensures forall a :: a in Urgentes(db) <==> a in db && a.visible && a.estado == Disponible && a.urgente
    ensures Seqs.SortedBy(ListedBefore, Disponibles(db)) && Seqs.SortedBy(ListedBefore, Urgentes(db))
  {
    var d := Seqs.Filter((a: Animal) => Available(a), db);
    var u := Seqs.Filter((a: Animal) => UrgentAvailable(a), db);
    forall a ensures a in Disponibles(db) <==> a in d {
      assert a in Disponibles(db) <==> a in multiset(Disponibles(db));
      assert a in d <==> a in multiset(d);
    }
    forall a ensures a in Urgentes(db) <==> a in u {
      assert a in Urgentes(db) <==> a in multiset(Urgentes(db));
      assert a in u <==> a in multiset(u);
    }
    ListedBeforeTotal();
    Seqs.SortSorted(ListedBefore, d);
    Seqs.SortSorted(ListedBefore, u);
  }

  // ---------------------------------------------------------------------
  // EventoViewSet
  // ---------------------------------------------------------------------

  /** `GET /api/eventos/`: every event, by ascending date. */
  function EventList(evs: seq<Evento>): (r: seq<Evento>)
    ensures multiset(r) == multiset(evs)
    ensures Seqs.SortedBy(EventoBefore, r)
  {
    EventoBeforeTotal();
    Seqs.SortSorted(EventoBefore, evs);
    Seqs.Sort(EventoBefore, evs)
  }

  predicate Upcoming(today: Date, e: Evento) {
    DateLe(today, e.fechaEvento)
  }

  /** `GET /api/eventos/proximos/`: the events dated today or later, in the
      stored order (the model declares no ordering). `today` is the date
      `timezone.now()` gives. */
  function Proximos(evs: seq<Evento>, today: Date): (r: seq<Evento>)
    ensures |r| <= |evs|
    ensures forall e :: e in r <==> e in evs && DateLe(today, e.fechaEvento)
  {
    Seqs.Filter((e: Evento) => Upcoming(today, e), evs)
  }

  /** `proximos` keeps exactly the events on or after `today`, order
      preserved, and ordering it afterwards gives the event list cut down to
      those same events. */
  lemma ProximosExact(evs: seq<Evento>, today: Date)
    ensures forall e :: e in Proximos(evs, today) <==> e in evs && DateLe(today, e.fechaEvento)
    ensures EventList(Proximos(evs, today)) == Seqs.Filter((e: Evento) => Upcoming(today, e), EventList(evs))
  {
    EventoBeforeTotal();
    Seqs.SortFilter(EventoBefore, (e: Evento) => Upcoming(today, e), evs);
  }

  // ---------------------------------------------------------------------
  // AnimalViewSet.get_serializer_class
  // ---------------------------------------------------------------------

  datatype Action = List | Retrieve | Create | Update | PartialUpdate | Destroy

  /** The list action shows the simplified projection, every other action the full one. */
  function AnimalRepr(action: Action, a: Animal, fotos: seq<FotoAnimal>, stampText: Stamp -> string): (j: Json)
    requires DatesValid(a)
    ensures j.JObj?
    ensures action == List <==> Keys(j.members) == AnimalSimpleFields
    ensures action != List <==> Keys(j.members) == AnimalFields
  {
    if action == List then AnimalSimpleJson(a) else AnimalJson(a, fotos, stampText)
  }

  // ---------------------------------------------------------------------
  // SolicitudAdopcionView.crear
  // ---------------------------------------------------------------------

  datatype Response = Response(status: nat, body: Json)

  const Created: nat := 201
  const BadRequest: nat := 400
  const SentMsg := "Solicitud de adopción enviada correctamente"

  /** `serializer.errors` as a JSON object of message lists. */
  function ErrorsJson(es: FieldErrors): (j: Json)
    ensures j.JObj? && |j.members| == |es|
    ensures forall i :: 0 <= i < |es| ==> j.members[i].0 == es[i].0
  {
    JObj(seq(|es|, i requires 0 <= i < |es| =>
      (es[i].0, JArr(seq(|es[i].1|, k requires 0 <= k < |es[i].1| => JStr(es[i].1[k]))))))
  }

  /** The 201 body: `{"mensaje": ..., "animal": nombre}`. */
  function Confirmation(nombre: string): Json {
    JObj([("mensaje", JStr(SentMsg)), ("animal", JStr(nombre))])
  }

  /** `POST /api/solicitudes-adopcion/crear/`. The notification text the view
      formats is never sent, so nothing else depends on it. */
  function Crear(db: seq<Animal>, d: SolicitudInput, isEmail: string -> bool): (r: Response)
    requires UniqueIds(db)
    ensures r.status == Created <==> ValidateSolicitud(db, d, isEmail).Ok?
    ensures r.status == Created ==>
      (exists a :: a in db && a.id == d.animalId.value && a.estado == Disponible && r.body == Confirmation(a.nombre))
    ensures r.status != Created ==> (r.status == BadRequest
      && r.body == ErrorsJson(ValidateSolicitud(db, d, isEmail).error))
  {
    match ValidateSolicitud(db, d, isEmail)
    case Ok(s) =>
      AcceptedAnimal(db, d, isEmail);
      var found := FindAnimal(db, s.animalId);
      Response(Created, Confirmation(found.value.nombre))
    case Err(es) => Response(BadRequest, ErrorsJson(es))
  }

  /** `Animal.objects.get(id=datos['animal_id'])` after a successful
      validation finds the requested, available animal. */
  lemma AcceptedAnimal(db: seq<Animal>, d: SolicitudInput, isEmail: string -> bool)
    requires UniqueIds(db) && ValidateSolicitud(db, d, isEmail).Ok?
    ensures ValidateSolicitud(db, d, isEmail).value.animalId == d.animalId.value
    ensures FindAnimal(db, d.animalId.value).Some?
    ensures FindAnimal(db, d.animalId.value).value.estado == Disponible
  {
    var v := d.animalId.value;
    assert SolicitudAcceptable(db, d, isEmail);
    var a :| a in db && a.id == v && a.estado == Disponible;
    var found := FindAnimal(db, v);
    UniqueIdsFind(db, v, found.value);
  }

  /** An acceptable request is confirmed with the requested animal's name;
      any other is refused with the validator's errors. */
  lemma CrearOutcome(db: seq<Animal>, d: SolicitudInput, isEmail: string -> bool)
    requires UniqueIds(db)
    ensures var r := Crear(db, d, isEmail);
      && (SolicitudAcceptable(db, d, isEmail) ==>
            && r.status == Created
            && Member(r.body.members, "mensaje") == Some(JStr(SentMsg))
            && exists a :: a in db && a.id == d.animalId.value && Member(r.body.members, "animal") == Some(JStr(a.nombre)))
      && (!SolicitudAcceptable(db, d, isEmail) ==> r.status == BadRequest && r.body.members != [])
  {
    var r := Crear(db, d, isEmail);
    if SolicitudAcceptable(db, d, isEmail) {
      var a :| a in db && a.id == d.animalId.value && a.estado == Disponible && r.body == Confirmation(a.nombre);
      assert Member(r.body.members, "animal") == Some(JStr(a.nombre));
    }
  }

  // ---------------------------------------------------------------------
  // IsAuthenticatedOrReadOnly
  // ---------------------------------------------------------------------

  datatype HttpMethod = GET | HEAD | OPTIONS | POST | PUT | PATCH | DELETE

  /** `SAFE_METHODS`: the methods that only read. */
  predicate IsSafe(m: HttpMethod) {
    m == GET || m == HEAD || m == OPTIONS
  }

  /** Reads are open to everyone; anything else needs an authenticated user. */
  function HasPermission(m: HttpMethod, authenticated: bool): (ok: bool)
    ensures !authenticated ==> (ok <==> m == GET || m == HEAD || m == OPTIONS)
    ensures authenticated ==> ok
  {
    IsSafe(m) || authenticated
  }
}
