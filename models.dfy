/** The records of gestionVillaPirritx/models.py: Animal, FotoAnimal, Evento
    and Protectora, their choice lists as closed enumerations with the codes
    stored in the database, their defaults, their orderings and their
    `__str__` renderings. */
module Models {
  import opened Wrappers
  import opened Text
  import Seqs

  // ---------------------------------------------------------------------
  // Choice lists. Each enumeration has the code the database stores and a
  // parser that accepts exactly the declared codes.
  // ---------------------------------------------------------------------

  datatype TipoAnimal = Perro | Gato | Otro

  const TipoAnimalChoices: seq<string> := ["perro", "gato", "otro"]

  function TipoAnimalCode(t: TipoAnimal): (s: string)
    ensures s in TipoAnimalChoices
  {
    match t
    case Perro => "perro"
    case Gato => "gato"
    case Otro => "otro"
  }

  function ParseTipoAnimal(s: string): (r: Option<TipoAnimal>)
    ensures r.Some? <==> s in TipoAnimalChoices
    ensures r.Some? ==> TipoAnimalCode(r.value) == s
  {
    if s == "perro" then Some(Perro)
    else if s == "gato" then Some(Gato)
    else if s == "otro" then Some(Otro)
    else None
  }

  datatype Estado = Disponible | Reservado | Adoptado | EnTratamiento

  const EstadoChoices: seq<string> := ["disponible", "reservado", "adoptado", "en_tratamiento"]

  function EstadoCode(e: Estado): (s: string)
    ensures s in EstadoChoices
  {
    match e
    case Disponible => "disponible"
    case Reservado => "reservado"
    case Adoptado => "adoptado"
    case EnTratamiento => "en_tratamiento"
  }

  function ParseEstado(s: string): (r: Option<Estado>)
    ensures r.Some? <==> s in EstadoChoices
    ensures r.Some? ==> EstadoCode(r.value) == s
  {
    if s == "disponible" then Some(Disponible)
    else if s == "reservado" then Some(Reservado)
    else if s == "adoptado" then Some(Adoptado)
    else if s == "en_tratamiento" then Some(EnTratamiento)
    else None
  }

  datatype Tamano = Pequeno | Mediano | Grande

  const TamanoChoices: seq<string> := ["pequeño", "mediano", "grande"]

  function TamanoCode(t: Tamano): (s: string)
    ensures s in TamanoChoices
  {
    match t
    case Pequeno => "pequeño"
    case Mediano => "mediano"
    case Grande => "grande"
  }

  function ParseTamano(s: string): (r: Option<Tamano>)
    ensures r.Some? <==> s in TamanoChoices
    ensures r.Some? ==> TamanoCode(r.value) == s
  {
    if s == "pequeño" then Some(Pequeno)
    else if s == "mediano" then Some(Mediano)
    else if s == "grande" then Some(Grande)
    else None
  }

  datatype Sexo = Macho | Hembra

  const SexoChoices: seq<string> := ["macho", "hembra"]

  function SexoCode(x: Sexo): (s: string)
    ensures s in SexoChoices
  {
    match x
    case Macho => "macho"
    case Hembra => "hembra"
  }

  function ParseSexo(s: string): (r: Option<Sexo>)
    ensures r.Some? <==> s in SexoChoices
    ensures r.Some? ==> SexoCode(r.value) == s
  {
    if s == "macho" then Some(Macho)
    else if s == "hembra" then Some(Hembra)
    else None
  }

  datatype TipoEvento = Adopcion | Charla | Recaudacion | OtroEvento

  const TipoEventoChoices: seq<string> := ["adopcion", "charla", "recaudacion", "otro"]

  function TipoEventoCode(t: TipoEvento): (s: string)
    ensures s in TipoEventoChoices
  {
    match t
    case Adopcion => "adopcion"
    case Charla => "charla"
    case Recaudacion => "recaudacion"
    case OtroEvento => "otro"
  }

  function ParseTipoEvento(s: string): (r: Option<TipoEvento>)
    ensures r.Some? <==> s in TipoEventoChoices
    ensures r.Some? ==> TipoEventoCode(r.value) == s
  {
    if s == "adopcion" then Some(Adopcion)
    else if s == "charla" then Some(Charla)
    else if s == "recaudacion" then Some(Recaudacion)
    else if s == "otro" then Some(OtroEvento)
    else None
  }

  /** Every declared value has its own code, and its code parses back to it. */
  lemma ChoiceCodesRoundTrip(t: TipoAnimal, e: Estado, z: Tamano, x: Sexo, v: TipoEvento)
    ensures ParseTipoAnimal(TipoAnimalCode(t)) == Some(t)
    ensures ParseEstado(EstadoCode(e)) == Some(e)
    ensures ParseTamano(TamanoCode(z)) == Some(z)
    ensures ParseSexo(SexoCode(x)) == Some(x)
    ensures ParseTipoEvento(TipoEventoCode(v)) == Some(v)
  {
  }

  // ---------------------------------------------------------------------
  // Dates, times and timestamps.
  // ---------------------------------------------------------------------

  /** A `DateField` value: a calendar date of Python's `datetime.date`. */
  datatype Date = Date(year: int, month: int, day: int)

  predicate IsLeapYear(y: int) {
    y % 4 == 0 && (y % 100 != 0 || y % 400 == 0)
  }

  function DaysInMonth(y: int, m: int): int
    requires 1 <= m <= 12
  {
    if m == 2 then (if IsLeapYear(y) then 29 else 28)
    else if m == 4 || m == 6 || m == 9 || m == 11 then 30
    else 31
  }

  /** The dates `datetime.date` can hold. */
  predicate ValidDate(d: Date) {
    1 <= d.year <= 9999 && 1 <= d.month <= 12 && 1 <= d.day <= DaysInMonth(d.year, d.month)
  }

  /** Calendar order, as the database compares dates. */
  predicate DateLe(a: Date, b: Date) {
    a.year < b.year || (a.year == b.year && (a.month < b.month || (a.month == b.month && a.day <= b.day)))
  }

  /** `str(date)`, which is `date.isoformat()`: `YYYY-MM-DD`. */
  function DateIso(d: Date): (r: string)
    requires ValidDate(d)
    ensures |r| == 10 && r[4] == '-' && r[7] == '-'
    ensures AllDigits(r[..4]) && AllDigits(r[5..7]) && AllDigits(r[8..])
  {
    var r := PadDec(d.year, 4) + "-" + PadDec(d.month, 2) + "-" + PadDec(d.day, 2);
    assert r[..4] == PadDec(d.year, 4) && r[5..7] == PadDec(d.month, 2) && r[8..] == PadDec(d.day, 2);
    r
  }

  /** The date an ISO rendering stands for (used to show the rendering loses nothing). */
  function DateOfIso(s: string): Date
    requires |s| == 10 && AllDigits(s[..4]) && AllDigits(s[5..7]) && AllDigits(s[8..])
  {
    Date(DecValue(s[..4]), DecValue(s[5..7]), DecValue(s[8..]))
  }

  /** Reading the rendering back gives the date, so distinct dates render differently. */
  lemma DateIsoRoundTrip(d: Date)
    requires ValidDate(d)
    ensures DateOfIso(DateIso(d)) == d
  {
    var r := PadDec(d.year, 4) + "-" + PadDec(d.month, 2) + "-" + PadDec(d.day, 2);
    assert r[..4] == PadDec(d.year, 4) && r[5..7] == PadDec(d.month, 2) && r[8..] == PadDec(d.day, 2);
    PadDecValue(d.year, 4);
    PadDecValue(d.month, 2);
    PadDecValue(d.day, 2);
  }

  /** A `TimeField` value. */
  datatype Time = Time(hour: int, minute: int, second: int)

  predicate ValidTime(t: Time) {
    0 <= t.hour < 24 && 0 <= t.minute < 60 && 0 <= t.second < 60
  }

  /** `time.isoformat()` for a time without microseconds: `HH:MM:SS`. */
  function TimeIso(t: Time): (r: string)
    requires ValidTime(t)
    ensures |r| == 8 && r[2] == ':' && r[5] == ':'
    ensures r[..2] == PadDec(t.hour, 2) && r[3..5] == PadDec(t.minute, 2) && r[6..] == PadDec(t.second, 2)
  {
    PadDec(t.hour, 2) + ":" + PadDec(t.minute, 2) + ":" + PadDec(t.second, 2)
  }

  /** A `DateTimeField` value (created_at, updated_at), in seconds. */
  type Stamp = int

  // ---------------------------------------------------------------------
  // Animal
  // ---------------------------------------------------------------------

  datatype Animal = Animal(
    id: nat,
    nombre: string,
    tipoAnimal: TipoAnimal,
    raza: string,
    edad: nat,                   // PositiveIntegerField: 0 is allowed
    tamano: Tamano,
    sexo: Option<Sexo>,          // null=True, blank=True
    descripcion: string,
    problemasFisicos: string,
    problemasComportamiento: string,
    estado: Estado,
    fechaIngreso: Option<Date>,
    fechaAdopcion: Option<Date>,
    esterilizado: bool,
    vacunado: bool,
    chip: bool,
    fotoPrincipal: Option<string>,
    urgente: bool,
    visible: bool,
    createdAt: Stamp,
    updatedAt: Stamp)

  /** The `max_length` bounds of the Animal character columns. */
  predicate AnimalFits(a: Animal) {
    |a.nombre| <= 100 && |a.raza| <= 100
  }

  /** An Animal saved with only its required fields given: every other field
      takes its declared default. `today` and `now` are the clock readings the
      `timezone.now` default and `auto_now_add` take. */
  function NewAnimal(id: nat, nombre: string, raza: string, edad: nat, today: Date, now: Stamp): (a: Animal)
    ensures a.id == id && a.nombre == nombre && a.raza == raza && a.edad == edad
    ensures a.tipoAnimal == Perro && a.tamano == Mediano && a.estado == Disponible && a.sexo == None
    ensures !a.esterilizado && !a.vacunado && !a.chip && !a.urgente && a.visible
    ensures a.fechaIngreso == Some(today) && a.fechaAdopcion == None && a.fotoPrincipal == None
    ensures a.descripcion == a.problemasFisicos == a.problemasComportamiento == ""
    ensures a.createdAt == now && a.updatedAt == now
  {
    Animal(id, nombre, Perro, raza, edad, Mediano, None, "", "", "", Disponible,
           Some(today), None, false, false, false, None, false, true, now, now)
  }

  /** `Meta.ordering = ['-urgente', '-created_at']`: `a` may be listed before `b`. */
  predicate ListedBefore(a: Animal, b: Animal) {
    (a.urgente && !b.urgente) || (a.urgente == b.urgente && a.createdAt >= b.createdAt)
  }

  /** The default Animal ordering compares every pair and chains. */
  lemma ListedBeforeTotal()
    ensures Seqs.TotalPreorder(ListedBefore)
  {
  }

  /** `Animal.__str__`: `nombre - raza (estado)`. */
  function AnimalStr(a: Animal): (r: string)
    ensures |r| == |a.nombre| + |a.raza| + |EstadoCode(a.estado)| + 6
    ensures r[..|a.nombre| + 3] == a.nombre + " - "
    ensures r[|a.nombre| + 3..|a.nombre| + 3 + |a.raza|] == a.raza
    ensures r[|a.nombre| + 3 + |a.raza|..|a.nombre| + 5 + |a.raza|] == " ("
    ensures r[|r| - |EstadoCode(a.estado)| - 1..] == EstadoCode(a.estado) + ")"
  {
    var n := a.nombre + " - ";
    var b := n + a.raza;
    var c := b + " (";
    var r := c + EstadoCode(a.estado) + ")";
    assert r[..|n|] == n && r[|n|..|b|] == a.raza && r[|b|..|c|] == " (";
    r
  }

  /** Two animals with the same name and breed render alike exactly when
      their adoption status is the same. */
  lemma AnimalStrShowsEstado(a: Animal, b: Animal)
    requires a.nombre == b.nombre && a.raza == b.raza
    ensures AnimalStr(a) == AnimalStr(b) <==> a.estado == b.estado
  {
    if AnimalStr(a) == AnimalStr(b) {
      var p := a.nombre + " - " + a.raza + " (";
      var ca := EstadoCode(a.estado) + ")";
      var cb := EstadoCode(b.estado) + ")";
      assert AnimalStr(a) == p + ca && AnimalStr(b) == p + cb;
      assert ca == (p + ca)[|p|..] == (p + cb)[|p|..] == cb;
      assert EstadoCode(a.estado) == ca[..|ca| - 1] == cb[..|cb| - 1] == EstadoCode(b.estado);
      ChoiceCodesRoundTrip(Perro, a.estado, Mediano, Macho, Adopcion);
      ChoiceCodesRoundTrip(Perro, b.estado, Mediano, Macho, Adopcion);
    }
  }

  // ---------------------------------------------------------------------
  // FotoAnimal
  // ---------------------------------------------------------------------

  /** A gallery photo; `animal` is the id of the owning Animal (on_delete=CASCADE). */
  datatype FotoAnimal = FotoAnimal(id: nat, animal: nat, foto: string, descripcion: string, orden: nat)

  predicate FotoFits(f: FotoAnimal) {
    |f.descripcion| <= 200
  }

  /** A photo saved with only its animal and file: `descripcion` blank, `orden` 0. */
  function NewFoto(id: nat, animal: nat, foto: string): (f: FotoAnimal)
    ensures f.animal == animal && f.foto == foto && f.orden == 0 && f.descripcion == ""
    ensures FotoFits(f)
  {
    FotoAnimal(id, animal, foto, "", 0)
  }

  /** `Meta.ordering = ['orden']`. */
  predicate FotoBefore(a: FotoAnimal, b: FotoAnimal) {
    a.orden <= b.orden
  }

  function FotoOwnedBy(animal: nat): FotoAnimal -> bool {
    (f: FotoAnimal) => f.animal == animal
  }

  /** `animal.fotos.all()`: the photos of one animal, in ascending `orden`. */
  function FotosOf(fotos: seq<FotoAnimal>, animal: nat): (r: seq<FotoAnimal>)
    ensures forall i :: 0 <= i < |r| ==> r[i].animal == animal
    ensures forall i, j :: 0 <= i < j < |r| ==> r[i].orden <= r[j].orden
    ensures forall f :: f in r <==> f in fotos && f.animal == animal
    ensures multiset(r) == multiset(Seqs.Filter(FotoOwnedBy(animal), fotos))
  {
    FotosOfSpec(fotos, animal);
    Seqs.Sort(FotoBefore, Seqs.Filter(FotoOwnedBy(animal), fotos))
  }

  lemma FotosOfSpec(fotos: seq<FotoAnimal>, animal: nat)
    ensures var r := Seqs.Sort(FotoBefore, Seqs.Filter(FotoOwnedBy(animal), fotos));
      && (forall i :: 0 <= i < |r| ==> r[i].animal == animal)
      && (forall i, j :: 0 <= i < j < |r| ==> r[i].orden <= r[j].orden)
      && (forall f :: f in r <==> f in fotos && f.animal == animal)
  {
    var owned := Seqs.Filter(FotoOwnedBy(animal), fotos);
    var r := Seqs.Sort(FotoBefore, owned);
    Seqs.SortSorted(FotoBefore, owned);
    assert Seqs.SortedBy(FotoBefore, r);
    SameElements(r, owned);
    forall f ensures f in owned <==> f in fotos && f.animal == animal {
      assert FotoOwnedBy(animal)(f) == (f.animal == animal);
    }
    forall i | 0 <= i < |r| ensures r[i].animal == animal {
      assert r[i] in owned;
    }
  }

  /** Sequences with the same multiset have the same elements. */
  lemma SameElements<T>(a: seq<T>, b: seq<T>)
    requires multiset(a) == multiset(b)
    ensures forall x :: x in a <==> x in b
  {
    forall x ensures x in a <==> x in b {
      assert x in a <==> x in multiset(a);
      assert x in b <==> x in multiset(b);
    }
  }

  /** `FotoAnimal.__str__`, given the owning animal. */
  function FotoStr(owner: Animal): (r: string)
    ensures |r| >= 8 && r[..8] == "Foto de " && r[8..] == owner.nombre
  {
    "Foto de " + owner.nombre
  }

  // ---------------------------------------------------------------------
  // Evento and Protectora
  // ---------------------------------------------------------------------

  datatype Evento = Evento(
    id: nat,
    tipoEvento: TipoEvento,
    fechaEvento: Date,
    lugarEvento: string,
    horaInicio: Time,
    horaFin: Time)

  predicate EventoFits(e: Evento) {
    ValidDate(e.fechaEvento) && ValidTime(e.horaInicio) && ValidTime(e.horaFin) && |e.lugarEvento| <= 200
  }

  /** `order_by('fecha_evento')`. */
  predicate EventoBefore(a: Evento, b: Evento) {
    DateLe(a.fechaEvento, b.fechaEvento)
  }

  lemma EventoBeforeTotal()
    ensures Seqs.TotalPreorder(EventoBefore)
  {
  }

  /** `Evento.__str__`: `tipo_evento en lugar_evento el fecha_evento`. */
  function EventoStr(e: Evento): (r: string)
    requires ValidDate(e.fechaEvento)
    ensures |r| == |TipoEventoCode(e.tipoEvento)| + |e.lugarEvento| + 18
    ensures r[..|TipoEventoCode(e.tipoEvento)| + 4] == TipoEventoCode(e.tipoEvento) + " en "
    ensures r[|TipoEventoCode(e.tipoEvento)| + 4..|TipoEventoCode(e.tipoEvento)| + 4 + |e.lugarEvento|] == e.lugarEvento
    ensures r[|r| - 14..|r| - 10] == " el "
    ensures r[|r| - 10..] == DateIso(e.fechaEvento)
  {
    var t := TipoEventoCode(e.tipoEvento) + " en ";
    var l := t + e.lugarEvento;
    var m := l + " el ";
    var r := m + DateIso(e.fechaEvento);
    assert r[..|t|] == t && r[|t|..|l|] == e.lugarEvento && r[|l|..|m|] == " el " && r[|m|..] == DateIso(e.fechaEvento);
    r
  }

  /** Two events of the same type at the same place render alike exactly
      when they fall on the same date. */
  lemma EventoStrShowsDate(a: Evento, b: Evento)
    requires ValidDate(a.fechaEvento) && ValidDate(b.fechaEvento)
    requires a.tipoEvento == b.tipoEvento && a.lugarEvento == b.lugarEvento
    ensures EventoStr(a) == EventoStr(b) <==> a.fechaEvento == b.fechaEvento
  {
    if EventoStr(a) == EventoStr(b) {
      DateIsoRoundTrip(a.fechaEvento);
      DateIsoRoundTrip(b.fechaEvento);
    }
  }

  /** The shelter's contact record (read-only through the API). */
  datatype Protectora = Protectora(
    id: nat,
    numeroTelefono: string,
    correoElectronico: string,
    cuentaCorriente: string,
    direccionTeaming: string)

  predicate ProtectoraFits(p: Protectora) {
    |p.numeroTelefono| <= 15 && |p.cuentaCorriente| <= 50 && |p.direccionTeaming| <= 200
  }

  /** `Protectora.__str__`. */
  function ProtectoraStr(p: Protectora): (r: string)
    ensures |r| >= 13 && r[..13] == "Protectora - " && r[13..] == p.correoElectronico
  {
    "Protectora - " + p.correoElectronico
  }
}
