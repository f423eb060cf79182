# Villa Pirritx shelter — a verified model of its core

Villa Pirritx is an animal shelter's web application. A Django REST
framework backend publishes the shelter's animals, events and contact
record. An Angular frontend shows the animals up for adoption. This
project models the parts of both that hold behaviour and proves what they
promise.

Backend (`gestionVillaPirritx`):

- **Records** (`models.dfy`): `Animal`, `FotoAnimal`, `Evento` and
  `Protectora`. Their choice lists are closed enumerations, with the codes
  the database stores. The file also gives their defaults, orderings and
  `__str__` renderings.
- **Representations and validation** (`serializers.dfy`):
  - the JSON projections: full and simplified `Animal`, `FotoAnimal`,
    `Evento`, `Protectora`;
  - the framework's `CharField` rules, written out: strip, blank check,
    maximum length, no NUL characters;
  - the adoption-request validator with `validate_animal_id`;
  - the validation of a posted animal.
- **Read side of the API** (`views.dfy`):
  - the catalogue query with its six optional filters and its ordering;
  - the detail lookup;
  - the `disponibles` and `urgentes` views;
  - the event list and `proximos`;
  - the adoption-request endpoint `crear`;
  - the `IsAuthenticatedOrReadOnly` rule.
- **Write side** (`store.dfy`): `AnimalViewSet` inherits create, update and
  destroy from `ModelViewSet`. They are methods of a store class that keeps
  three invariants:
  - primary keys are unique;
  - keys stay below the next key to be handed out;
  - every photo's owner exists, which holds because deletion cascades to
    the photos.

Frontend (`Front/src/app`):

- **JavaScript values** (`js.dfy`): what `JSON.parse` makes of a response,
  truthiness, `||`, property reads, object spread and `String(value)`.
- **`MascotasService`** (`mascotas_service.dfy`):
  - `transformarAnimal`;
  - the shape-dispatching decoder `procesarRespuestaAnimales`;
  - the query-string builder of `buscarAnimales`, as a method appending to
    a buffer;
  - the round trip from the backend's rendered listing to the page, and
    from the frontend's search filters to the backend's criteria.
- **`AdopcionComponent`** (`adopcion_component.dfy`): the page's three
  fields `animales`, `loading` and `error`, updated by the start, success
  and error steps of `cargarAnimales`, `filtrarPorTipo` and
  `filtrarPorUrgencia`. When the backend fails or has nothing, the page
  falls back to the built-in sample list.

Shared helpers:

- `wrappers.dfy`: `Option` and `Result`.
- `seqs.dfy`: order-preserving filter and a stable insertion sort, with
  their lemmas.
- `text.dfy`: Python's `str.strip` and `int()`, decimal renderings, and
  JavaScript's `toLowerCase` on ASCII.

Nothing outside the model is called. Clock readings and the email-syntax
check are parameters:

- `today` and `now`;
- `stampText`, the framework's date-time text;
- `isEmail`.

## Model

| member | source | states |
|---|---|---|
| Models.TipoAnimalCode | Back/djangoPro/VillaPirritx/gestionVillaPirritx/models.py:6-10 | every animal type is stored as one of the three declared codes |
| Models.ParseTipoAnimal | Back/djangoPro/VillaPirritx/gestionVillaPirritx/models.py:6-10 | a stored text is an animal type exactly when it is one of `perro`, `gato`, `otro`, and then it is that type's code |
| Models.EstadoCode | Back/djangoPro/VillaPirritx/gestionVillaPirritx/models.py:12-17 | every adoption state is stored as one of the four declared codes |
| Models.ParseEstado | Back/djangoPro/VillaPirritx/gestionVillaPirritx/models.py:12-17 | a text is an adoption state exactly when it is one of `disponible`, `reservado`, `adoptado`, `en_tratamiento` |
| Models.TamanoCode | Back/djangoPro/VillaPirritx/gestionVillaPirritx/models.py:19-23 | every size is stored as one of the three declared codes |
| Models.ParseTamano | Back/djangoPro/VillaPirritx/gestionVillaPirritx/models.py:19-23 | a text is a size exactly when it is one of `pequeño`, `mediano`, `grande` |
| Models.SexoCode | Back/djangoPro/VillaPirritx/gestionVillaPirritx/models.py:31 | a sex is stored as `macho` or `hembra` |
| Models.ParseSexo | Back/djangoPro/VillaPirritx/gestionVillaPirritx/models.py:31 | a text is a sex exactly when it is `macho` or `hembra` |
| Models.TipoEventoCode | Back/djangoPro/VillaPirritx/gestionVillaPirritx/models.py:82-89 | every event type is stored as one of the four declared codes |
| Models.ParseTipoEvento | Back/djangoPro/VillaPirritx/gestionVillaPirritx/models.py:82-89 | a text is an event type exactly when it is one of `adopcion`, `charla`, `recaudacion`, `otro` |
| Models.ChoiceCodesRoundTrip | Back/djangoPro/VillaPirritx/gestionVillaPirritx/models.py:6-31 | each enumeration's code reads back as the value it came from, so no two values share a code |
| Models.DateIso | Back/djangoPro/VillaPirritx/gestionVillaPirritx/models.py:90 | a date renders as ten characters `YYYY-MM-DD`: digits with dashes at positions 4 and 7 |
| Models.DateIsoRoundTrip | Back/djangoPro/VillaPirritx/gestionVillaPirritx/models.py:90 | reading the rendered digits gives back the date, so distinct dates render differently |
| Models.TimeIso | Back/djangoPro/VillaPirritx/gestionVillaPirritx/models.py:92-93 | a time renders as eight characters `HH:MM:SS`: the hour, minute and second, each as two zero-padded digits, joined by colons |
| Models.NewAnimal | Back/djangoPro/VillaPirritx/gestionVillaPirritx/models.py:26-57 | an animal saved with only its required fields is a dog of medium size, available, visible, not urgent, not sterilised, vaccinated or chipped, admitted today, with no adoption date and no photo |
| Models.ListedBeforeTotal | Back/djangoPro/VillaPirritx/gestionVillaPirritx/models.py:59-60 | the default ordering (urgent first, then newest first) compares any two animals and chains |
| Models.AnimalStr | Back/djangoPro/VillaPirritx/gestionVillaPirritx/models.py:64-65 | an animal's text is its name, ` - `, its breed, ` (`, its state code and `)`, segment by segment, and nothing else |
| Models.AnimalStrShowsEstado | Back/djangoPro/VillaPirritx/gestionVillaPirritx/models.py:64-65 | two animals with the same name and breed render alike exactly when their adoption states are equal |
| Models.NewFoto | Back/djangoPro/VillaPirritx/gestionVillaPirritx/models.py:68-72 | a photo saved with only its animal and file has order 0 and a blank description |
| Models.FotosOf | Back/djangoPro/VillaPirritx/gestionVillaPirritx/models.py:69-75 | an animal's photos are exactly the stored photos owned by it, each as often as stored, in ascending `orden` |
| Models.FotosOfSpec | Back/djangoPro/VillaPirritx/gestionVillaPirritx/models.py:69-75 | the sorted owned photos belong to the animal, are in ascending `orden`, and are the stored photos with that owner |
| Models.FotoStr | Back/djangoPro/VillaPirritx/gestionVillaPirritx/models.py:77-78 | a photo's text is `Foto de ` followed by its owner's name |
| Models.EventoBeforeTotal | Back/djangoPro/VillaPirritx/gestionVillaPirritx/views.py:86 | ordering by event date compares any two events and chains |
| Models.EventoStr | Back/djangoPro/VillaPirritx/gestionVillaPirritx/models.py:95-96 | an event's text is its type code, ` en `, its place, ` el ` and its ISO date, segment by segment, and nothing else |
| Models.EventoStrShowsDate | Back/djangoPro/VillaPirritx/gestionVillaPirritx/models.py:95-96 | two events of the same type and place render alike exactly when they fall on the same date |
| Models.ProtectoraStr | Back/djangoPro/VillaPirritx/gestionVillaPirritx/models.py:105-106 | the shelter record's text is `Protectora - ` followed by its email address |
| Serializers.FotoJson | Back/djangoPro/VillaPirritx/gestionVillaPirritx/serializers.py:8-12 | a photo renders with exactly the members `id`, `foto`, `descripcion`, `orden`, in that order |
| Serializers.SimpleFieldsDistinct | Back/djangoPro/VillaPirritx/gestionVillaPirritx/serializers.py:35-38 | the listing projection names each field once |
| Serializers.AnimalSimpleJson | Back/djangoPro/VillaPirritx/gestionVillaPirritx/serializers.py:31-38 | the listing projection has exactly the nine members `id` … `urgente`, in declared order |
| Serializers.FotosJson | Back/djangoPro/VillaPirritx/gestionVillaPirritx/serializers.py:17 | the nested photos render as an array holding one photo rendering per photo of the animal, in ascending `orden` |
| Serializers.AnimalJson | Back/djangoPro/VillaPirritx/gestionVillaPirritx/serializers.py:15-28 | the full projection has exactly the 22 declared members, in declared order |
| Serializers.SimpleIsFullRestricted | Back/djangoPro/VillaPirritx/gestionVillaPirritx/serializers.py:21-38 | the listing projection is the full one cut down to nine positions, names and values alike, whatever the nested photos are |
| Serializers.SimpleFieldsWithinFull | Back/djangoPro/VillaPirritx/gestionVillaPirritx/serializers.py:17-38 | every listing field is a full field, and the only read-only field the listing shows is the key |
| Serializers.EventoJson | Back/djangoPro/VillaPirritx/gestionVillaPirritx/serializers.py:41-45 | an event renders with all of its columns, its date as ISO text under `fecha_evento` |
| Serializers.ProtectoraJson | Back/djangoPro/VillaPirritx/gestionVillaPirritx/serializers.py:48-52 | the shelter record renders with all of its columns |
| Serializers.CharField | Back/djangoPro/VillaPirritx/gestionVillaPirritx/serializers.py:58 | a text field is accepted exactly when its stripped value is non-blank (or blank is allowed), within the maximum and free of NUL; it yields the stripped value, and a blank value has the blank message only |
| Serializers.RequiredText | Back/djangoPro/VillaPirritx/gestionVillaPirritx/serializers.py:58-66 | a required text field is accepted exactly when it is sent and passes the text rules; a missing one has the required message |
| Serializers.EmailField | Back/djangoPro/VillaPirritx/gestionVillaPirritx/serializers.py:60 | an email is accepted exactly when it is sent, non-blank, NUL-free and its stripped value is an address |
| Serializers.ErrorsOf | Back/djangoPro/VillaPirritx/gestionVillaPirritx/serializers.py:55-66 | a field contributes an error entry exactly when it failed, under its own name with its messages |
| Serializers.FindAnimal | Back/djangoPro/VillaPirritx/gestionVillaPirritx/serializers.py:71 | the lookup finds a stored animal with that id, and finds nothing exactly when no stored animal has it |
| Serializers.ValidateAnimalId | Back/djangoPro/VillaPirritx/gestionVillaPirritx/serializers.py:68-76 | an id passes exactly when an available animal has it, and then is returned unchanged; an unknown id fails with "Animal no encontrado.", an unavailable animal with the not-available message |
| Serializers.UniqueIdsFind | Back/djangoPro/VillaPirritx/gestionVillaPirritx/serializers.py:71 | with unique keys, the animal found by id is the only one with that id |
| Serializers.AnimalIdField | Back/djangoPro/VillaPirritx/gestionVillaPirritx/serializers.py:57 | `animal_id` passes exactly when it is sent and names an available animal; a sent id that fails carries the validator's one message |
| Serializers.OptionalText | Back/djangoPro/VillaPirritx/gestionVillaPirritx/serializers.py:63 | an optional text field passes when missing (and stays absent) or when its value passes the text rules (and is stripped) |
| Serializers.SolicitudErrors | Back/djangoPro/VillaPirritx/gestionVillaPirritx/serializers.py:55-66 | the error list is empty exactly when every field passed, and an `animal_id` failure comes first |
| Serializers.CheckSolicitudAcceptable | Back/djangoPro/VillaPirritx/gestionVillaPirritx/serializers.py:55-76 | every field check passes exactly when the request meets the field-by-field acceptance rule |
| Serializers.ValidateSolicitud | Back/djangoPro/VillaPirritx/gestionVillaPirritx/serializers.py:55-76 | a request validates exactly when it is acceptable; it keeps the animal id, `otros_animales` defaults to false, `experiencia` is present only if sent, and a refusal has at least one error, an `animal_id` one first |
| Serializers.SolicitudAnimalError | Back/djangoPro/VillaPirritx/gestionVillaPirritx/serializers.py:68-76 | an unknown animal is refused first with "Animal no encontrado.", an unavailable one first with the not-available message |
| Serializers.SolicitudWithinLimits | Back/djangoPro/VillaPirritx/gestionVillaPirritx/serializers.py:58-66 | every text of an accepted request is the sent text stripped, within 100, 200, 15, 300, 500, 500 and 200 characters; its email is an address; `experiencia` is the stripped text when sent and absent otherwise |
| Serializers.CheckDraft | Back/djangoPro/VillaPirritx/gestionVillaPirritx/serializers.py:15-28 | every writable field passes exactly when the draft meets the acceptance rule; name, breed and the three free texts come out stripped |
| Serializers.DraftErrors | Back/djangoPro/VillaPirritx/gestionVillaPirritx/serializers.py:15-28 | the draft's error list is empty exactly when every field passed |
| Serializers.ValidateDraft | Back/djangoPro/VillaPirritx/gestionVillaPirritx/serializers.py:15-28 | a posted animal validates exactly when acceptable; it is then the draft as sent with its five texts stripped, every other field (type, size, sex, state, dates, health flags, photo, urgency, visibility) kept, name and breed within 100 characters, age non-negative, dates valid |
| Serializers.DefaultedDraftValid | Back/djangoPro/VillaPirritx/gestionVillaPirritx/models.py:26-53 | a POST sending only `nombre`, `raza` and `edad` is accepted exactly when name and breed are acceptable texts; the admission date comes from the clock and is never validated |
| Views.TextFilter | Back/djangoPro/VillaPirritx/gestionVillaPirritx/views.py:48-53 | a text filter applies exactly when the parameter was sent non-empty, and then with the sent value |
| Views.AgeFilter | Back/djangoPro/VillaPirritx/gestionVillaPirritx/views.py:54-57 | an age filter fails exactly when sent non-empty and not an integer; otherwise it applies exactly when sent non-empty, with the integer value |
| Views.ToCriteria | Back/djangoPro/VillaPirritx/gestionVillaPirritx/views.py:41-59 | the parameters convert exactly when every age sent non-empty reads as an integer; a bad minimum age is reported under `edad_min` |
| Views.Query | Back/djangoPro/VillaPirritx/gestionVillaPirritx/views.py:36-61 | the list query answers exactly when the parameters convert |
| Views.CriteriaSelect | Back/djangoPro/VillaPirritx/gestionVillaPirritx/views.py:48-59 | the converted filters keep an animal exactly when it is visible and passes every parameter that was sent non-empty |
| Views.QueryExact | Back/djangoPro/VillaPirritx/gestionVillaPirritx/views.py:38-59 | the list holds exactly the stored visible animals passing every filter sent, each as often as stored |
| Views.QuerySorted | Back/djangoPro/VillaPirritx/gestionVillaPirritx/views.py:61 | the list has every urgent animal before every non-urgent one, and creation times non-increasing within equal urgency |
| Views.Normalize | Back/djangoPro/VillaPirritx/gestionVillaPirritx/views.py:41-46 | each of the six normalised parameters is present exactly when it was sent non-empty, and then holds the value sent |
| Views.EmptyParamIgnored | Back/djangoPro/VillaPirritx/gestionVillaPirritx/views.py:48-59 | sending a parameter empty gives the same answer as not sending it |
| Views.UrgenteAnyValue | Back/djangoPro/VillaPirritx/gestionVillaPirritx/views.py:58-59 | any non-empty `urgente`, `"false"` included, gives the same answer as `"true"`: only urgent animals |
| Views.AgeBoundsInclusive | Back/djangoPro/VillaPirritx/gestionVillaPirritx/views.py:54-57 | with integer bounds both sent, the list holds exactly the visible animals aged from the minimum to the maximum inclusive |
| Views.Lookup | Back/djangoPro/VillaPirritx/gestionVillaPirritx/views.py:36-61 | the detail lookup answers exactly when the parameters convert |
| Views.LookupExact | Back/djangoPro/VillaPirritx/gestionVillaPirritx/views.py:36-61 | the detail lookup finds an animal exactly when a stored one with that key passes the filters, and what it finds is such an animal |
| Views.Disponibles | Back/djangoPro/VillaPirritx/gestionVillaPirritx/views.py:63-68 | `disponibles` lists exactly the stored visible available animals, in the default order |
| Views.Urgentes | Back/djangoPro/VillaPirritx/gestionVillaPirritx/views.py:70-75 | `urgentes` lists exactly the stored visible available urgent animals, in the default order |
| Views.SortedPermutation | Back/djangoPro/VillaPirritx/gestionVillaPirritx/models.py:59-60 | ordering rows by the default ordering keeps exactly the same rows and sorts them |
| Views.DisponiblesIsQuery | Back/djangoPro/VillaPirritx/gestionVillaPirritx/views.py:63-68 | `disponibles` is the list query with only `estado=disponible` sent |
| Views.UrgentesOfDisponibles | Back/djangoPro/VillaPirritx/gestionVillaPirritx/views.py:70-75 | `urgentes` is `disponibles` cut down to its urgent animals, in the same order |
| Views.FixedViewsExact | Back/djangoPro/VillaPirritx/gestionVillaPirritx/views.py:63-75 | `disponibles` holds exactly the visible available animals, `urgentes` exactly the urgent ones among them, both in the default order |
| Views.EventList | Back/djangoPro/VillaPirritx/gestionVillaPirritx/views.py:84-86 | the event list is a permutation of all events, in ascending date |
| Views.Proximos | Back/djangoPro/VillaPirritx/gestionVillaPirritx/views.py:88-94 | `proximos` keeps exactly the events dated today or later |
| Views.ProximosExact | Back/djangoPro/VillaPirritx/gestionVillaPirritx/views.py:88-94 | `proximos` keeps exactly the events dated today or later; put in date order it is the event list cut down to them |
| Views.AnimalRepr | Back/djangoPro/VillaPirritx/gestionVillaPirritx/views.py:30-34 | the list action shows exactly the listing fields, and every other action exactly the full fields |
| Views.ErrorsJson | Back/djangoPro/VillaPirritx/gestionVillaPirritx/views.py:152 | the error body has one member per failing field, in the same order and under the same names |
| Views.Crear | Back/djangoPro/VillaPirritx/gestionVillaPirritx/views.py:106-152 | the answer is 201 exactly when the request validates, with the confirmation naming the stored animal; otherwise 400 with the validator's errors |
| Views.AcceptedAnimal | Back/djangoPro/VillaPirritx/gestionVillaPirritx/views.py:111-114 | after validation, the lookup by `animal_id` finds the requested animal, and it is available |
| Views.CrearOutcome | Back/djangoPro/VillaPirritx/gestionVillaPirritx/views.py:106-152 | an acceptable request gets 201 with the fixed `mensaje` and the animal's name; any other gets 400 with a non-empty error body |
| Views.HasPermission | Back/djangoPro/VillaPirritx/gestionVillaPirritx/views.py:28 | an anonymous user may only GET, HEAD or OPTIONS; an authenticated user may use any method |
| Store.AppendKeepsValid | Back/djangoPro/VillaPirritx/gestionVillaPirritx/views.py:18-28 | adding an animal under the next free key keeps keys unique, below the advanced counter, and every photo's owner present |
| Store.CascadeKeepsIntegrity | Back/djangoPro/VillaPirritx/gestionVillaPirritx/models.py:69 | deleting an animal with its photos removes exactly that animal and its photos, and leaves every remaining photo's owner present |
| Store.CascadeNeeded | Back/djangoPro/VillaPirritx/gestionVillaPirritx/models.py:69 | deleting an animal without its photos would leave a photo without its owner |
| Store.ReplacedKeepsIntegrity | Back/djangoPro/VillaPirritx/gestionVillaPirritx/views.py:18-28 | replacing a row by one with the same key keeps keys unique and every photo's owner present |
| Store.LookupInStore | Back/djangoPro/VillaPirritx/gestionVillaPirritx/views.py:36-61 | what the detail lookup finds is a stored row with that key |
| Store.FromDraft | Back/djangoPro/VillaPirritx/gestionVillaPirritx/serializers.py:15-28 | the stored row carries every writable field as sent, and the key and timestamps the database sets |
| Store.RequiredOnlyPost | Back/djangoPro/VillaPirritx/gestionVillaPirritx/models.py:26-53 | a POST of only the required fields stores exactly the animal with every model default, its name and breed stripped |
| Store.AnimalStore.constructor | Back/djangoPro/VillaPirritx/gestionVillaPirritx/views.py:27 | a store over consistent rows holds them and its invariant |
| Store.AnimalStore.Insert | Back/djangoPro/VillaPirritx/gestionVillaPirritx/views.py:18-28 | a validated draft is appended under the next key, photos untouched, the invariant kept |
| Store.AnimalStore.Create | Back/djangoPro/VillaPirritx/gestionVillaPirritx/views.py:18-28 | anonymous posts are refused and invalid drafts rejected with their errors, both changing nothing; otherwise the draft is added under a fresh key |
| Store.AnimalStore.Replace | Back/djangoPro/VillaPirritx/gestionVillaPirritx/views.py:18-28 | the row with the key becomes the draft, with the same key and creation time; everything else is unchanged |
| Store.AnimalStore.Update | Back/djangoPro/VillaPirritx/gestionVillaPirritx/views.py:18-61 | an update is refused (anonymous, bad age parameter, not found through the filtered queryset, invalid draft) with nothing changed, or it replaces that row keeping its creation time and photos |
| Store.AnimalStore.Destroy | Back/djangoPro/VillaPirritx/gestionVillaPirritx/views.py:18-61 | a deletion is refused with nothing changed, or it removes that animal and exactly its photos |
| Store.AnimalStore.Remove | Back/djangoPro/VillaPirritx/gestionVillaPirritx/models.py:69 | the animal and exactly its photos are removed, and the invariant is kept |
| Text.StripBlank | Back/djangoPro/VillaPirritx/gestionVillaPirritx/serializers.py:58-66 | a text strips to blank exactly when it is all whitespace |
| Text.Strip | Back/djangoPro/VillaPirritx/gestionVillaPirritx/serializers.py:58-66 | a stripped text is the slice of the original between its leading and trailing whitespace: everything cut off is whitespace, and what is kept neither starts nor ends with whitespace |
| Text.ParseInt | Back/djangoPro/VillaPirritx/gestionVillaPirritx/views.py:54-57 | `int()` accepts a text only if, stripped, it ends in a digit; a negative result comes from a leading `-`; a plain digit string reads as its decimal value |
| Text.ParseIntString | Back/djangoPro/VillaPirritx/gestionVillaPirritx/views.py:54-57 | an integer's decimal text reads back as that integer |
| Text.ToLower | Front/src/app/pages/adopcion/adopcion.component.ts:165 | lower-casing keeps the length and changes only capital letters, each to its small letter |
| Js.Or | Front/src/app/services/mascotas.service.ts:44-45 | `a \|\| b` is `a` when `a` is truthy and `b` otherwise |
| Js.Get | Front/src/app/services/mascotas.service.ts:44-45 | reading a property gives the object's member, or `undefined` when there is none |
| Js.Spread | Front/src/app/services/mascotas.service.ts:43 | spreading an object copies exactly its members |
| MascotasService.TransformarAnimal | Front/src/app/services/mascotas.service.ts:41-47 | the transform throws exactly on `null` or `undefined`; otherwise it keeps every other property, and sets `tamano` from `tamaño` and `estado_adopcion` from `estado` when those are truthy, else keeps the existing values |
| MascotasService.SpreadHasNoNames | Front/src/app/services/mascotas.service.ts:43 | a spread value answers every non-index property the same way as the value itself |
| MascotasService.TransformarIdempotent | Front/src/app/services/mascotas.service.ts:41-47 | transforming an already transformed animal changes nothing |
| MascotasService.MapTransform | Front/src/app/services/mascotas.service.ts:55 | mapping succeeds exactly when no element is `null` or `undefined`, and then gives one transformed element per input, in order |
| MascotasService.ProcesarRespuesta | Front/src/app/services/mascotas.service.ts:50-71 | a bare array is decoded first, then a `results` array, then a `data` array; anything else decodes to the empty list |
| MascotasService.ProcesarIdempotent | Front/src/app/services/mascotas.service.ts:50-71 | decoding an already decoded list as a bare array gives it back |
| MascotasService.SimpleRowParses | Back/djangoPro/VillaPirritx/gestionVillaPirritx/serializers.py:35-38 | a parsed listing row carries the animal's key, size code and state code under the backend's names |
| MascotasService.ListingDoc | Back/djangoPro/VillaPirritx/gestionVillaPirritx/views.py:30-34 | the listing document holds one listing projection per row, in order |
| MascotasService.RowTransforms | Front/src/app/services/mascotas.service.ts:41-47 | a transformed listing row carries the key, and the size and state under the frontend's names |
| MascotasService.ListingDecodes | Front/src/app/services/mascotas.service.ts:74-79 | the rendered listing decodes without error into one animal per row, in order, each showing its key, size and state |
| MascotasService.Receive | Front/src/app/services/mascotas.service.ts:74-79 | the page gets a list exactly when the request answered and decoding did not throw, and then gets the decoded list |
| MascotasService.Emit | Front/src/app/services/mascotas.service.ts:103-106 | a filter adds one parameter with its `String` value when truthy, and nothing otherwise |
| MascotasService.SearchParams | Front/src/app/services/mascotas.service.ts:100-106 | a search sends at most four parameters, and none exactly when all four filters are falsy |
| MascotasService.BuscarParams | Front/src/app/services/mascotas.service.ts:100-106 | the buffer ends as the four truthy filters, in order, with `tamano` sent as `tamaño` |
| MascotasService.SearchNames | Front/src/app/services/mascotas.service.ts:101-106 | the names sent are those of the truthy filters, in the fixed order |
| MascotasService.SearchParamsSent | Front/src/app/services/mascotas.service.ts:101-106 | each filter is sent exactly when truthy (0 and "" are dropped), and `estado`, `urgente` and `tamano` are never sent |
| MascotasService.SearchParamsOrdered | Front/src/app/services/mascotas.service.ts:101-106 | each name is sent at most once, in the order `tipo_animal`, `tamaño`, `edad_min`, `edad_max` |
| MascotasService.LastValue | Back/djangoPro/VillaPirritx/gestionVillaPirritx/views.py:41-46 | the backend sees a parameter exactly when its name was sent, with a value sent under that name |
| MascotasService.SentValues | Front/src/app/services/mascotas.service.ts:103-106 | every parameter sent is one of the four filters paired with its `String` value |
| MascotasService.SearchQuery | Back/djangoPro/VillaPirritx/gestionVillaPirritx/views.py:41-46 | the backend reads each truthy filter as its `String` value, and no state or urgency |
| MascotasService.SearchTextReachesBackend | Back/djangoPro/VillaPirritx/gestionVillaPirritx/views.py:48-53 | a search's type and size filters apply exactly when truthy with non-empty text, with that text; state and urgency never apply |
| MascotasService.SearchAgesReachBackend | Back/djangoPro/VillaPirritx/gestionVillaPirritx/views.py:54-57 | numeric ages convert without error, and a bound applies exactly when the number is non-zero, with that number |
| Adopcion.Ejemplo | Front/src/app/pages/adopcion/adopcion.component.ts:19-68 | a sample entry is an object carrying its type, urgency and name |
| Adopcion.SampleFields | Front/src/app/pages/adopcion/adopcion.component.ts:19-68 | the sample list has three dogs, and only the second is urgent |
| Adopcion.LocalesPorTipo | Front/src/app/pages/adopcion/adopcion.component.ts:164-166 | the type fallback holds exactly the sample entries whose type equals the one asked for, ignoring case |
| Adopcion.UrgentesLocales | Front/src/app/pages/adopcion/adopcion.component.ts:200 | the urgency fallback holds exactly the urgent sample entries |
| Adopcion.DogTipo | Front/src/app/pages/adopcion/adopcion.component.ts:164-166 | a dog passes the type filter exactly when the type asked for lower-cases to `perro` |
| Adopcion.LocalesPorTipoCases | Front/src/app/pages/adopcion/adopcion.component.ts:162-178 | the type fallback is the whole sample list for `perro` in any letter case, and empty for any other type |
| Adopcion.SampleHasUrgent | Front/src/app/pages/adopcion/adopcion.component.ts:45 | the urgency fallback is exactly Negu |
| Adopcion.UrgentesLocalesShown | Front/src/app/pages/adopcion/adopcion.component.ts:198-207 | the urgency fallback is non-empty and all urgent, so the alert-and-reload branches are never reached |
| Adopcion.UrgentView | Front/src/app/pages/adopcion/adopcion.component.ts:190-209 | what the urgency filter shows is never empty and only urgent |
| Adopcion.TipoFiltroParams | Front/src/app/pages/adopcion/adopcion.component.ts:155 | filtering by type sends just `tipo_animal` with the type, or nothing for an empty type |
| Adopcion.AdopcionComponent.constructor | Front/src/app/pages/adopcion/adopcion.component.ts:14-16 | the page starts with no animals, loading, and no message |
| Adopcion.AdopcionComponent.CargarAnimales | Front/src/app/pages/adopcion/adopcion.component.ts:79-84 | starting a load turns loading on and clears the message |
| Adopcion.AdopcionComponent.CargarAnimalesNext | Front/src/app/pages/adopcion/adopcion.component.ts:85-98 | a non-empty answer is shown as it came with the message kept; an empty one shows the sample list with its message; loading ends and the page is never empty |
| Adopcion.AdopcionComponent.CargarAnimalesError | Front/src/app/pages/adopcion/adopcion.component.ts:99-104 | a failed load shows the sample list with the connection message, and loading ends |
| Adopcion.AdopcionComponent.FiltrarPorTipo | Front/src/app/pages/adopcion/adopcion.component.ts:150-155 | filtering by type turns loading on, keeps the list and message, and sends the type as its only filter |
| Adopcion.AdopcionComponent.FiltrarPorTipoNext | Front/src/app/pages/adopcion/adopcion.component.ts:156-169 | a non-empty answer is shown as it came; an empty one is replaced by the matching sample entries; the message is kept and loading ends |
| Adopcion.AdopcionComponent.FiltrarPorTipoError | Front/src/app/pages/adopcion/adopcion.component.ts:170-180 | a failed type filter shows the matching sample entries with the filter message, and loading ends |
| Adopcion.AdopcionComponent.FiltrarPorUrgencia | Front/src/app/pages/adopcion/adopcion.component.ts:184-189 | starting the urgency filter turns loading on and clears the message |
| Adopcion.AdopcionComponent.FiltrarPorUrgenciaNext | Front/src/app/pages/adopcion/adopcion.component.ts:190-209 | the page shows the answer's urgent animals in order, or the sample's urgent ones with a message when it has none; it is never empty, only urgent, and loading ends |
| Adopcion.AdopcionComponent.FiltrarPorUrgenciaError | Front/src/app/pages/adopcion/adopcion.component.ts:210-222 | a failed urgency filter shows the sample's urgent animals with the connection message, and loading ends |

## Left out

- The HTTP transport, RxJS subscription and `console` logging are not modelled. Each callback is a method taking the already received list. `MascotasService.Receive` says which callback runs.
- `alert`, `navigator.share`, the clipboard fallback and the share text are not modelled. The alert-and-reload branches of `filtrarPorUrgencia` are proved unreachable.
- `getAnimalById`, `getEventosProximos` and `crearSolicitudAdopcion` are single HTTP calls with nothing to model beyond the transform. The service posts adoption requests to `/solicitudes-adopcion/`, while the backend route ends in `crear/`.
- Sending email is commented out in `crear`, and its message text is never used, so neither is modelled.
- Email address syntax is the framework's own. It is the parameter `isEmail`.
- `ImageField` storage is not modelled. An image is its stored name, or none. The framework renders an image as a URL built from the media settings and the request, and an empty name as `null`. The model renders the stored name itself, and an empty name as the empty string.
- Times carry no microseconds. A `TimeField` with microseconds renders as `HH:MM:SS.ffffff`, which `TimeIso` does not produce.
- `sexo` allows blank (`blank=True`), so it can hold the empty string. `Option<Sexo>` has only none or a declared sex.
- The clock is a parameter: `today` for `fecha_ingreso` and `proximos`, and `now` for the timestamps.
- The framework's date-time text is the parameter `stampText`.
- `created_at` is taken as always present, so where the database puts NULLs when sorting is not modelled. The order of rows that tie under an ordering is the database's. The model fixes one stable order but promises only sortedness and the permutation.
- Python's `int()` also accepts non-ASCII digits and `_` separators. `ParseInt` reads only an optional sign and ASCII digits.
- JavaScript's `toLowerCase` is modelled on ASCII letters only.
- `Views.ErrorsJson` states the member names and their order, not the message arrays under them.
- Query strings are taken to be URL-decoded to exactly what was appended. A name sent twice is read as its last value.
- Numbers are integers. Floating-point ages, `-0` and `NaN` are not modelled.
- The order of an object's keys in JavaScript is not modelled: objects are maps.
- `Js.Get`: properties every value of a type carries are read as `undefined`. Examples are `length` of strings and arrays, and prototype methods. The frontend reads none of them.
- `MascotasService.BuscarParams` requires a filters value that is not `null` or `undefined`. JavaScript would throw on the first property read, and the only caller passes an object literal.
- `Store.AnimalStore.Create` takes every writable field. A POST that omits fields is given as the draft with the model defaults filled in. `Serializers.DefaultedDraft` builds it for a POST of only the required fields, and `Store.RequiredOnlyPost` shows the stored row is then `NewAnimal`'s. Other partial drafts are filled in by the caller the same way. The response to a POST that omits `fecha_ingreso` is not modelled. The new instance then holds the datetime `timezone.now()`, which the column turns into a date only when it is written. The framework's date rendering refuses a datetime, so the program saves the row and then answers with a server error. The model answers `Created`.
- `Store.AnimalStore.Update` models `PUT` with every writable field given. `PATCH` (partial update) and a `PUT` that omits non-required fields are not modelled. On such a `PUT` the omitted fields keep their stored values.
- Choice values outside the declared lists, wrongly typed fields and the framework's date parsing are not modelled. `AnimalDraft` holds typed values, and a date is refused only when it is not a calendar date.
- Writes to events and to the shelter record are not modelled: `EventoViewSet` writes are the framework's generic ones, and `ProtectoraViewSet` is read-only.
- Database integer ranges and transactions are not modelled.
- The seeding script `crear_animales_prueba.py` and the route tables are not modelled: they are data loading and framework routing.
