/** gestionVillaPirritx/serializers.py: the JSON representations of the
    records (full and simplified Animal, Evento, Protectora, FotoAnimal), the
    writable part of the full Animal representation, and the validation of
    an adoption request (`SolicitudAdopcionSerializer`). The field rules of
    Django REST framework that these declarations rely on are written out:
    a CharField strips surrounding whitespace, refuses a blank value unless
    blank is allowed, and then runs every validator, collecting all of their
    messages. */
module Serializers {
  import opened Wrappers
  import opened Text
  import opened Models
  import Seqs

  // ---------------------------------------------------------------------
  // JSON documents
  // ---------------------------------------------------------------------

  /** A JSON document as the renderer writes it; object members keep their order. */
  datatype Json = JNull | JBool(b: bool) | JInt(i: int) | JStr(s: string) | JArr(items: seq<Json>) | JObj(members: seq<(string, Json)>)

  function Keys(members: seq<(string, Json)>): (ks: seq<string>)
    ensures |ks| == |members|
    ensures forall i :: 0 <= i < |ks| ==> ks[i] == members[i].0
  {
    seq(|members|, i requires 0 <= i < |members| => members[i].0)
  }

  /** The value of the first member named `k`. */
  function Member(members: seq<(string, Json)>, k: string): (r: Option<Json>)
    ensures r.Some? <==> k in Keys(members)
    ensures r.Some? ==> (k, r.value) in members
  {
    if members == [] then None
    else if members[0].0 == k then Some(members[0].1)
    else
      assert Keys(members) == [members[0].0] + Keys(members[1..]);
      Member(members[1..], k)
  }

  /** An object whose members are `keys` paired with `vals`, in order. */
  function Obj(keys: seq<string>, vals: seq<Json>): (j: Json)
    requires |keys| == |vals|
    ensures j.JObj? && Keys(j.members) == keys
    ensures forall i :: 0 <= i < |keys| ==> j.members[i] == (keys[i], vals[i])
  {
    JObj(seq(|keys|, i requires 0 <= i < |keys| => (keys[i], vals[i])))
  }

  /** The member at position `i` is found by name when no earlier member has that name. */
  lemma MemberAt(keys: seq<string>, vals: seq<Json>, i: nat)
    requires |keys| == |vals| && i < |keys|
    requires forall j :: 0 <= j < i ==> keys[j] != keys[i]
    ensures Member(Obj(keys, vals).members, keys[i]) == Some(vals[i])
  {
    var ms := Obj(keys, vals).members;
    if i > 0 {
      assert ms[1..] == Obj(keys[1..], vals[1..]).members;
      MemberAt(keys[1..], vals[1..], i - 1);
    }
  }

  function OptStr(s: Option<string>): Json {
    if s.Some? then JStr(s.value) else JNull
  }

  function OptDate(d: Option<Date>): Json
    requires d.Some? ==> ValidDate(d.value)
  {
    if d.Some? then JStr(DateIso(d.value)) else JNull
  }

  function OptSexo(x: Option<Sexo>): Json {
    if x.Some? then JStr(SexoCode(x.value)) else JNull
  }

  predicate DatesValid(a: Animal) {
    (a.fechaIngreso.Some? ==> ValidDate(a.fechaIngreso.value))
    && (a.fechaAdopcion.Some? ==> ValidDate(a.fechaAdopcion.value))
  }

  // ---------------------------------------------------------------------
  // Representations
  // ---------------------------------------------------------------------

  const FotoFields: seq<string> := ["id", "foto", "descripcion", "orden"]

  /** `FotoAnimalSerializer`. */
  function FotoJson(f: FotoAnimal): (j: Json)
    ensures j.JObj? && Keys(j.members) == FotoFields
  {
    Obj(FotoFields, [JInt(f.id), JStr(f.foto), JStr(f.descripcion), JInt(f.orden)])
  }

  const AnimalSimpleFields: seq<string> :=
    ["id", "nombre", "tipo_animal", "raza", "edad", "tamaño", "estado", "foto_principal", "urgente"]

  const AnimalFields: seq<string> :=
    ["id", "nombre", "tipo_animal", "raza", "edad", "tamaño", "sexo",
     "descripcion", "problemas_fisicos", "problemas_comportamiento",
     "estado", "fecha_ingreso", "fecha_adopcion", "esterilizado",
     "vacunado", "chip", "foto_principal", "urgente", "visible",
     "fotos", "created_at", "updated_at"]

  /** The fields of the full representation that input never sets: the
      primary key, the nested photos and the two timestamps. */
  const AnimalReadOnlyFields: seq<string> := ["id", "fotos", "created_at", "updated_at"]

  /** The listing projection names each field once. */
  lemma SimpleFieldsDistinct()
    ensures forall i, j :: 0 <= i < j < |AnimalSimpleFields| ==> AnimalSimpleFields[i] != AnimalSimpleFields[j]
  {
  }

  function AnimalSimpleVals(a: Animal): (vs: seq<Json>)
    ensures |vs| == |AnimalSimpleFields|
  {
    [JInt(a.id), JStr(a.nombre), JStr(TipoAnimalCode(a.tipoAnimal)), JStr(a.raza), JInt(a.edad),
     JStr(TamanoCode(a.tamano)), JStr(EstadoCode(a.estado)), OptStr(a.fotoPrincipal), JBool(a.urgente)]
  }

  /** `AnimalSimpleSerializer`: the listing projection. */
  function AnimalSimpleJson(a: Animal): (j: Json)
    ensures j.JObj? && Keys(j.members) == AnimalSimpleFields
  {
    Obj(AnimalSimpleFields, AnimalSimpleVals(a))
  }

  /** The nested `fotos` of an animal. */
  function FotosJson(fotos: seq<FotoAnimal>, animal: nat): (j: Json)
    ensures j.JArr? && |j.items| == |FotosOf(fotos, animal)|
    ensures forall i :: 0 <= i < |j.items| ==> j.items[i] == FotoJson(FotosOf(fotos, animal)[i])
  {
    var own := FotosOf(fotos, animal);
    JArr(seq(|own|, i requires 0 <= i < |own| => FotoJson(own[i])))
  }

  function AnimalVals(a: Animal, fotos: Json, stampText: Stamp -> string): (vs: seq<Json>)
    requires DatesValid(a)
    ensures |vs| == |AnimalFields|
  {
    [JInt(a.id), JStr(a.nombre), JStr(TipoAnimalCode(a.tipoAnimal)), JStr(a.raza), JInt(a.edad),
     JStr(TamanoCode(a.tamano)), OptSexo(a.sexo), JStr(a.descripcion), JStr(a.problemasFisicos),
     JStr(a.problemasComportamiento), JStr(EstadoCode(a.estado)), OptDate(a.fechaIngreso),
     OptDate(a.fechaAdopcion), JBool(a.esterilizado), JBool(a.vacunado), JBool(a.chip),
     OptStr(a.fotoPrincipal), JBool(a.urgente), JBool(a.visible),
     fotos, JStr(stampText(a.createdAt)), JStr(stampText(a.updatedAt))]
  }

  /** `AnimalSerializer`: every field, with the animal's photos nested in
      ascending `orden`. Timestamps are written by `stampText`, the
      framework's date-time format. */
  function AnimalJson(a: Animal, fotos: seq<FotoAnimal>, stampText: Stamp -> string): (j: Json)
    requires DatesValid(a)
    ensures j.JObj? && Keys(j.members) == AnimalFields
  {
    Obj(AnimalFields, AnimalVals(a, FotosJson(fotos, a.id), stampText))
  }

  /** The simplified projection is the full one cut down to its nine
      fields, in the same order: its names and values are the full ones at
      positions 0 to 5, 10, 16 and 17, whatever the nested photos are. */
  lemma SimpleIsFullRestricted(a: Animal, nested: Json, stampText: Stamp -> string)
    requires DatesValid(a)
    ensures var f := AnimalFields;
      AnimalSimpleFields == [f[0], f[1], f[2], f[3], f[4], f[5], f[10], f[16], f[17]]
    ensures var v := AnimalVals(a, nested, stampText);
      AnimalSimpleVals(a) == [v[0], v[1], v[2], v[3], v[4], v[5], v[10], v[16], v[17]]
  {
  }

  /** Every field of the simplified projection is a field of the full one,
      and none of the read-only fields except the key is in it. */
  lemma SimpleFieldsWithinFull()
    ensures forall k :: k in AnimalSimpleFields ==> k in AnimalFields
    ensures forall k :: k in AnimalReadOnlyFields && k in AnimalSimpleFields ==> k == "id"
  {
  }

  const EventoFields: seq<string> := ["id", "tipo_evento", "fecha_evento", "lugar_evento", "hora_inicio", "hora_fin"]

  /** `EventoSerializer` (`fields = '__all__'`). */
  function EventoJson(e: Evento): (j: Json)
    requires EventoFits(e)
    ensures j.JObj? && Keys(j.members) == EventoFields
    ensures Member(j.members, "fecha_evento") == Some(JStr(DateIso(e.fechaEvento)))
  {
    var vals := [JInt(e.id), JStr(TipoEventoCode(e.tipoEvento)), JStr(DateIso(e.fechaEvento)),
                 JStr(e.lugarEvento), JStr(TimeIso(e.horaInicio)), JStr(TimeIso(e.horaFin))];
    MemberAt(EventoFields, vals, 2);
    Obj(EventoFields, vals)
  }

  const ProtectoraFields: seq<string> := ["id", "numero_telefono", "correo_electronico", "cuenta_corriente", "direccion_teaming"]

  /** `ProtectoraSerializer` (`fields = '__all__'`). */
  function ProtectoraJson(p: Protectora): (j: Json)
    ensures j.JObj? && Keys(j.members) == ProtectoraFields
  {
    Obj(ProtectoraFields, [JInt(p.id), JStr(p.numeroTelefono), JStr(p.correoElectronico),
                           JStr(p.cuentaCorriente), JStr(p.direccionTeaming)])
  }

  // ---------------------------------------------------------------------
  // Field validation
  // ---------------------------------------------------------------------

  const RequiredMsg := "This field is required."
  const BlankMsg := "This field may not be blank."
  const NullCharMsg := "Null characters are not allowed."
  const EmailMsg := "Enter a valid email address."
  const MinZeroMsg := "Ensure this value is greater than or equal to 0."
  const DateFormatMsg := "Date has wrong format. Use one of these formats instead: YYYY-MM-DD."

  function MaxLengthMsg(n: nat): string {
    "Ensure this field has no more than " + DecString(n) + " characters."
  }

  /** Field name and messages, in the order the fields are declared. */
  type FieldErrors = seq<(string, seq<string>)>

  /** What a CharField accepts: after stripping, not blank unless allowed,
      within `maxLength`, and free of NUL characters. */
  predicate TextOk(raw: string, maxLength: Option<nat>, allowBlank: bool) {
    var v := Strip(raw);
    if v == [] then allowBlank
    else (maxLength.None? || |v| <= maxLength.value) && '\0' !in v
  }

  /** `CharField.run_validation` on a supplied string. */
  function CharField(raw: string, maxLength: Option<nat>, allowBlank: bool): (r: Result<string, seq<string>>)
    ensures r.Ok? <==> TextOk(raw, maxLength, allowBlank)
    ensures r.Ok? ==> r.value == Strip(raw)
    ensures r.Err? ==> r.error != []
    ensures r.Err? && Strip(raw) == [] ==> r.error == [BlankMsg]
  {
    var v := Strip(raw);
    if v == [] then
      if allowBlank then Ok(v) else Err([BlankMsg])
    else
      var errs := (if maxLength.Some? && |v| > maxLength.value then [MaxLengthMsg(maxLength.value)] else [])
                  + (if '\0' in v then [NullCharMsg] else []);
      if errs == [] then Ok(v) else Err(errs)
  }

  /** A required CharField that may be missing from the payload. */
  function RequiredText(raw: Option<string>, maxLength: Option<nat>): (r: Result<string, seq<string>>)
    ensures r.Ok? <==> raw.Some? && TextOk(raw.value, maxLength, false)
    ensures raw.None? ==> r == Err([RequiredMsg])
  {
    if raw.None? then Err([RequiredMsg]) else CharField(raw.value, maxLength, false)
  }

  /** `EmailField`: a CharField whose last validator is the address check,
      given here as `isEmail` (the syntax of addresses is Django's). */
  function EmailField(raw: Option<string>, isEmail: string -> bool): (r: Result<string, seq<string>>)
    ensures r.Ok? <==> raw.Some? && TextOk(raw.value, None, false) && isEmail(Strip(raw.value))
  {
    if raw.None? then Err([RequiredMsg])
    else
      var v := Strip(raw.value);
      if v == [] then Err([BlankMsg])
      else
        var errs := (if '\0' in v then [NullCharMsg] else []) + (if isEmail(v) then [] else [EmailMsg]);
        if errs == [] then Ok(v) else Err(errs)
  }

  function ErrorsOf<T>(field: string, r: Result<T, seq<string>>): (es: FieldErrors)
    ensures es == [] <==> r.Ok?
    ensures r.Err? ==> es == [(field, r.error)]
  {
    if r.Err? then [(field, r.error)] else []
  }

  // ---------------------------------------------------------------------
  // SolicitudAdopcionSerializer
  // ---------------------------------------------------------------------

  /** The posted adoption request; a `None` field is missing from the payload. */
  datatype SolicitudInput = SolicitudInput(
    animalId: Option<int>,
    nombre: Option<string>,
    apellidos: Option<string>,
    email: Option<string>,
    telefono: Option<string>,
    direccion: Option<string>,
    experiencia: Option<string>,
    motivacion: Option<string>,
    otrosAnimales: Option<bool>,
    espacioVivienda: Option<string>)

  /** `validated_data`: `experiencia` only when it was sent. */
  datatype Solicitud = Solicitud(
    animalId: int,
    nombre: string,
    apellidos: string,
    email: string,
    telefono: string,
    direccion: string,
    experiencia: Option<string>,
    motivacion: string,
    otrosAnimales: bool,
    espacioVivienda: string)

  const AnimalNotFoundMsg := "Animal no encontrado."
  const AnimalNotAvailableMsg := "Este animal ya no está disponible para adopción."
  const SolicitudFields: seq<string> :=
    ["animal_id", "nombre", "apellidos", "email", "telefono", "direccion",
     "experiencia", "motivacion", "otros_animales", "espacio_vivienda"]

  /** Database rows never share a primary key. */
  predicate UniqueIds(db: seq<Animal>) {
    forall i, j :: 0 <= i < j < |db| ==> db[i].id != db[j].id
  }

  /** `Animal.objects.get(id=v)` over all animals, visible or not. */
  function FindAnimal(db: seq<Animal>, v: int): (r: Option<Animal>)
    ensures r.Some? ==> r.value in db && r.value.id == v
    ensures r.None? <==> forall a :: a in db ==> a.id != v
  {
    if db == [] then None
    else if db[0].id == v then Some(db[0])
    else FindAnimal(db[1..], v)
  }

  /** `validate_animal_id`: the animal must exist and be available; the id is returned unchanged. */
  function ValidateAnimalId(db: seq<Animal>, v: int): (r: Result<int, string>)
    requires UniqueIds(db)
    ensures r.Ok? <==> exists a :: a in db && a.id == v && a.estado == Disponible
    ensures r.Ok? ==> r.value == v
    ensures (forall a :: a in db ==> a.id != v) ==> r == Err(AnimalNotFoundMsg)
    ensures (exists a :: a in db && a.id == v && a.estado != Disponible) ==> r == Err(AnimalNotAvailableMsg)
  {
    match FindAnimal(db, v)
    case None => Err(AnimalNotFoundMsg)
    case Some(animal) =>
      UniqueIdsFind(db, v, animal);
      if animal.estado != Disponible then Err(AnimalNotAvailableMsg) else Ok(v)
  }

  lemma UniqueIdsFind(db: seq<Animal>, v: int, found: Animal)
    requires UniqueIds(db) && found in db && found.id == v
    ensures forall a :: a in db && a.id == v ==> a == found
  {
    forall a | a in db && a.id == v ensures a == found {
      var i :| 0 <= i < |db| && db[i] == a;
      var j :| 0 <= j < |db| && db[j] == found;
      assert i == j;
    }
  }

  function AnimalIdField(db: seq<Animal>, raw: Option<int>): (r: Result<int, seq<string>>)
    requires UniqueIds(db)
    ensures r.Ok? <==> raw.Some? && exists a :: a in db && a.id == raw.value && a.estado == Disponible
    ensures r.Ok? ==> r.value == raw.value
    ensures raw.Some? && r.Err? ==> r.error == [ValidateAnimalId(db, raw.value).error]
  {
    if raw.None? then Err([RequiredMsg])
    else match ValidateAnimalId(db, raw.value)
      case Ok(v) => Ok(v)
      case Err(m) => Err([m])
  }

  /** When the serializer accepts a request, stated field by field. */
  predicate SolicitudAcceptable(db: seq<Animal>, d: SolicitudInput, isEmail: string -> bool) {
    && d.animalId.Some? && (exists a :: a in db && a.id == d.animalId.value && a.estado == Disponible)
    && d.nombre.Some? && TextOk(d.nombre.value, Some(100), false)
    && d.apellidos.Some? && TextOk(d.apellidos.value, Some(200), false)
    && d.email.Some? && TextOk(d.email.value, None, false) && isEmail(Strip(d.email.value))
    && d.telefono.Some? && TextOk(d.telefono.value, Some(15), false)
    && d.direccion.Some? && TextOk(d.direccion.value, Some(300), false)
    && (d.experiencia.Some? ==> TextOk(d.experiencia.value, Some(500), false))
    && d.motivacion.Some? && TextOk(d.motivacion.value, Some(500), false)
    && d.espacioVivienda.Some? && TextOk(d.espacioVivienda.value, Some(200), false)
  }

  /** A CharField with `required=False`: a missing value passes as `None`. */
  function OptionalText(raw: Option<string>, maxLength: Option<nat>): (r: Result<Option<string>, seq<string>>)
    ensures r.Ok? <==> (raw.Some? ==> TextOk(raw.value, maxLength, false))
    ensures r.Ok? ==> (r.value.Some? <==> raw.Some?)
    ensures r.Ok? && raw.Some? ==> r.value.value == Strip(raw.value)
  {
    if raw.None? then Ok(None)
    else match CharField(raw.value, maxLength, false)
      case Ok(v) => Ok(Some(v))
      case Err(m) => Err(m)
  }

  /** The outcome of each field's own validation. */
  datatype SolicitudChecks = SolicitudChecks(
    animal: Result<int, seq<string>>,
    nombre: Result<string, seq<string>>,
    apellidos: Result<string, seq<string>>,
    email: Result<string, seq<string>>,
    telefono: Result<string, seq<string>>,
    direccion: Result<string, seq<string>>,
    experiencia: Result<Option<string>, seq<string>>,
    motivacion: Result<string, seq<string>>,
    otros: bool,
    espacio: Result<string, seq<string>>)

  function CheckSolicitud(db: seq<Animal>, d: SolicitudInput, isEmail: string -> bool): SolicitudChecks
    requires UniqueIds(db)
  {
    SolicitudChecks(
      AnimalIdField(db, d.animalId),
      RequiredText(d.nombre, Some(100)),
      RequiredText(d.apellidos, Some(200)),
      EmailField(d.email, isEmail),
      RequiredText(d.telefono, Some(15)),
      RequiredText(d.direccion, Some(300)),
      OptionalText(d.experiencia, Some(500)),
      RequiredText(d.motivacion, Some(500)),
      if d.otrosAnimales.Some? then d.otrosAnimales.value else false,
      RequiredText(d.espacioVivienda, Some(200)))
  }

  predicate AllOk(c: SolicitudChecks) {
    c.animal.Ok? && c.nombre.Ok? && c.apellidos.Ok? && c.email.Ok? && c.telefono.Ok?
    && c.direccion.Ok? && c.experiencia.Ok? && c.motivacion.Ok? && c.espacio.Ok?
  }

  /** `serializer.errors`: the failing fields in declaration order. */
  function SolicitudErrors(c: SolicitudChecks): (es: FieldErrors)
    ensures es == [] <==> AllOk(c)
    ensures c.animal.Err? ==> es != [] && es[0] == ("animal_id", c.animal.error)
  {
    ErrorsOf("animal_id", c.animal) + ErrorsOf("nombre", c.nombre) + ErrorsOf("apellidos", c.apellidos)
    + ErrorsOf("email", c.email) + ErrorsOf("telefono", c.telefono) + ErrorsOf("direccion", c.direccion)
    + ErrorsOf("experiencia", c.experiencia) + ErrorsOf("motivacion", c.motivacion)
    + ErrorsOf("espacio_vivienda", c.espacio)
  }

  /** Every field passes exactly when the request is acceptable. */
  lemma CheckSolicitudAcceptable(db: seq<Animal>, d: SolicitudInput, isEmail: string -> bool)
    requires UniqueIds(db)
    ensures AllOk(CheckSolicitud(db, d, isEmail)) <==> SolicitudAcceptable(db, d, isEmail)
  {
  }

  /** `SolicitudAdopcionSerializer(data=d).is_valid()`, with `validated_data`
      on success and `errors` on failure. */
  function ValidateSolicitud(db: seq<Animal>, d: SolicitudInput, isEmail: string -> bool): (r: Result<Solicitud, FieldErrors>)
    requires UniqueIds(db)
    ensures r.Ok? <==> SolicitudAcceptable(db, d, isEmail)
    ensures r.Ok? ==> r.value.animalId == d.animalId.value
    ensures r.Ok? ==> r.value.otrosAnimales == (d.otrosAnimales == Some(true))
    ensures r.Ok? ==> (r.value.experiencia.Some? <==> d.experiencia.Some?)
    ensures r.Err? ==> r.error != []
    ensures r.Err? && CheckSolicitud(db, d, isEmail).animal.Err? ==> r.error[0] == ("animal_id", CheckSolicitud(db, d, isEmail).animal.error)
  {
    var c := CheckSolicitud(db, d, isEmail);
    CheckSolicitudAcceptable(db, d, isEmail);
    if AllOk(c) then
      Ok(Solicitud(c.animal.value, c.nombre.value, c.apellidos.value, c.email.value, c.telefono.value,
                   c.direccion.value, c.experiencia.value, c.motivacion.value, c.otros, c.espacio.value))
    else Err(SolicitudErrors(c))
  }

  /** An unknown or unavailable animal is the first error reported. */
  lemma SolicitudAnimalError(db: seq<Animal>, d: SolicitudInput, isEmail: string -> bool)
    requires UniqueIds(db) && d.animalId.Some?
    ensures (forall a :: a in db ==> a.id != d.animalId.value)
      ==> ValidateSolicitud(db, d, isEmail).Err?
          && ValidateSolicitud(db, d, isEmail).error[0] == ("animal_id", [AnimalNotFoundMsg])
    ensures (exists a :: a in db && a.id == d.animalId.value && a.estado != Disponible)
      ==> ValidateSolicitud(db, d, isEmail).Err?
          && ValidateSolicitud(db, d, isEmail).error[0] == ("animal_id", [AnimalNotAvailableMsg])
  {
    var c := CheckSolicitud(db, d, isEmail);
    var v := ValidateAnimalId(db, d.animalId.value);
    if (forall a :: a in db ==> a.id != d.animalId.value) {
      assert v == Err(AnimalNotFoundMsg);
      assert c.animal == Err([AnimalNotFoundMsg]);
    }
    if (exists a :: a in db && a.id == d.animalId.value && a.estado != Disponible) {
      assert v == Err(AnimalNotAvailableMsg);
      assert c.animal == Err([AnimalNotAvailableMsg]);
    }
  }

  /** Accepted text fields are stripped and within their maximum lengths. */
  lemma SolicitudWithinLimits(db: seq<Animal>, d: SolicitudInput, isEmail: string -> bool)
    requires UniqueIds(db)
    requires ValidateSolicitud(db, d, isEmail).Ok?
    ensures var s := ValidateSolicitud(db, d, isEmail).value;
      && s.nombre == Strip(d.nombre.value) && |s.nombre| <= 100
      && s.apellidos == Strip(d.apellidos.value) && |s.apellidos| <= 200
      && s.telefono == Strip(d.telefono.value) && |s.telefono| <= 15
      && s.direccion == Strip(d.direccion.value) && |s.direccion| <= 300
      && s.motivacion == Strip(d.motivacion.value) && |s.motivacion| <= 500
      && s.espacioVivienda == Strip(d.espacioVivienda.value) && |s.espacioVivienda| <= 200
      && s.email == Strip(d.email.value) && isEmail(s.email)
      && s.experiencia == (if d.experiencia.Some? then Some(Strip(d.experiencia.value)) else None)
      && (s.experiencia.Some? ==> |s.experiencia.value| <= 500)
  {
  }

  // ---------------------------------------------------------------------
  // AnimalSerializer input
  // ---------------------------------------------------------------------

  /** The writable fields of `AnimalSerializer` as posted; the read-only
      fields have no place in it, so input can never set them. */
  datatype AnimalDraft = AnimalDraft(
    nombre: string,
    tipoAnimal: TipoAnimal,
    raza: string,
    edad: int,
    tamano: Tamano,
    sexo: Option<Sexo>,
    descripcion: string,
    problemasFisicos: string,
    problemasComportamiento: string,
    estado: Estado,
    fechaIngreso: Option<Date>,
    fechaAdopcion: Option<Date>,
    esterilizado: bool,
    vacunado: bool,
    chip: bool,
    fotoPrincipal: Option<string>,
    urgente: bool,
    visible: bool)

  predicate OptDateOk(d: Option<Date>) {
    d.Some? ==> ValidDate(d.value)
  }

  /** When `AnimalSerializer` accepts a draft, field by field. */
  predicate DraftAcceptable(d: AnimalDraft) {
    && TextOk(d.nombre, Some(100), false)
    && TextOk(d.raza, Some(100), false)
    && d.edad >= 0
    && TextOk(d.descripcion, None, true)
    && TextOk(d.problemasFisicos, None, true)
    && TextOk(d.problemasComportamiento, None, true)
    && OptDateOk(d.fechaIngreso) && OptDateOk(d.fechaAdopcion)
  }

  /** The outcome of each writable field's own validation. */
  datatype DraftChecks = DraftChecks(
    nombre: Result<string, seq<string>>,
    raza: Result<string, seq<string>>,
    edad: Result<int, seq<string>>,
    descripcion: Result<string, seq<string>>,
    fisicos: Result<string, seq<string>>,
    comportamiento: Result<string, seq<string>>,
    ingreso: Result<bool, seq<string>>,
    adopcion: Result<bool, seq<string>>)

  function CheckDraft(d: AnimalDraft): (c: DraftChecks)
    ensures DraftAllOk(c) <==> DraftAcceptable(d)
    ensures c.nombre.Ok? ==> c.nombre.value == Strip(d.nombre)
    ensures c.raza.Ok? ==> c.raza.value == Strip(d.raza)
    ensures c.descripcion.Ok? ==> c.descripcion.value == Strip(d.descripcion)
    ensures c.fisicos.Ok? ==> c.fisicos.value == Strip(d.problemasFisicos)
    ensures c.comportamiento.Ok? ==> c.comportamiento.value == Strip(d.problemasComportamiento)
  {
    DraftChecks(
      CharField(d.nombre, Some(100), false),
      CharField(d.raza, Some(100), false),
      if d.edad < 0 then Err([MinZeroMsg]) else Ok(d.edad),
      CharField(d.descripcion, None, true),
      CharField(d.problemasFisicos, None, true),
      CharField(d.problemasComportamiento, None, true),
      if OptDateOk(d.fechaIngreso) then Ok(true) else Err([DateFormatMsg]),
      if OptDateOk(d.fechaAdopcion) then Ok(true) else Err([DateFormatMsg]))
  }

  predicate DraftAllOk(c: DraftChecks) {
    c.nombre.Ok? && c.raza.Ok? && c.edad.Ok? && c.descripcion.Ok? && c.fisicos.Ok?
    && c.comportamiento.Ok? && c.ingreso.Ok? && c.adopcion.Ok?
  }

  /** The failing fields in declaration order. */
  function DraftErrors(c: DraftChecks): (es: FieldErrors)
    ensures es == [] <==> DraftAllOk(c)
  {
    ErrorsOf("nombre", c.nombre) + ErrorsOf("raza", c.raza) + ErrorsOf("edad", c.edad)
    + ErrorsOf("descripcion", c.descripcion) + ErrorsOf("problemas_fisicos", c.fisicos)
    + ErrorsOf("problemas_comportamiento", c.comportamiento)
    + ErrorsOf("fecha_ingreso", c.ingreso) + ErrorsOf("fecha_adopcion", c.adopcion)
  }

  /** The validated draft (strings stripped), or the field errors in declaration order. */
  function ValidateDraft(d: AnimalDraft): (r: Result<AnimalDraft, FieldErrors>)
    ensures r.Ok? <==> DraftAcceptable(d)
    ensures r.Ok? ==> (r.value.nombre == Strip(d.nombre) && r.value.raza == Strip(d.raza)
      && |r.value.nombre| <= 100 && |r.value.raza| <= 100 && r.value.edad == d.edad >= 0)
    ensures r.Ok? ==> (r.value.estado == d.estado && r.value.urgente == d.urgente && r.value.visible == d.visible
      && OptDateOk(r.value.fechaIngreso) && OptDateOk(r.value.fechaAdopcion))
    ensures r.Ok? ==> r.value == d.(nombre := Strip(d.nombre), raza := Strip(d.raza),
      descripcion := Strip(d.descripcion), problemasFisicos := Strip(d.problemasFisicos),
      problemasComportamiento := Strip(d.problemasComportamiento))
    ensures r.Err? ==> r.error != []
  {
    var c := CheckDraft(d);
    if DraftAllOk(c) then
      Ok(d.(nombre := c.nombre.value, raza := c.raza.value, descripcion := c.descripcion.value,
            problemasFisicos := c.fisicos.value, problemasComportamiento := c.comportamiento.value))
    else Err(DraftErrors(c))
  }

  /** The writable part of a stored animal: what a PUT of its own full
      representation would send back. */
  function Writable(a: Animal): AnimalDraft {
    AnimalDraft(a.nombre, a.tipoAnimal, a.raza, a.edad, a.tamano, a.sexo, a.descripcion,
                a.problemasFisicos, a.problemasComportamiento, a.estado, a.fechaIngreso, a.fechaAdopcion,
                a.esterilizado, a.vacunado, a.chip, a.fotoPrincipal, a.urgente, a.visible)
  }

  /** The draft a POST sending only the required `nombre`, `raza` and `edad`
      becomes: every omitted field takes its model default. */
  function DefaultedDraft(nombre: string, raza: string, edad: nat, today: Date): AnimalDraft {
    Writable(NewAnimal(0, nombre, raza, edad, today, 0))
  }

  /** A POST of only the required fields is accepted exactly when the name
      and breed are acceptable texts: the admission date comes from the
      clock and the omitted texts are blank, which the model allows. */
  lemma DefaultedDraftValid(nombre: string, raza: string, edad: nat, today: Date)
    requires ValidDate(today)
    ensures ValidateDraft(DefaultedDraft(nombre, raza, edad, today)).Ok?
      <==> TextOk(nombre, Some(100), false) && TextOk(raza, Some(100), false)
  {
    assert Strip("") == [];
  }
}
