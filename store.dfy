/** The write side of `AnimalViewSet`, inherited from `ModelViewSet`:
    create, update and destroy over the animal table and its photos, each
    gated by `IsAuthenticatedOrReadOnly`. Deleting an animal cascades to
    its photos (`on_delete=models.CASCADE`). */
module Store {
  import opened Wrappers
  import opened Text
  import opened Models
  import opened Serializers
  import opened Views
  import Seqs

  /** Every photo belongs to a stored animal (the foreign key holds). */
  predicate Integrity(animales: seq<Animal>, fotos: seq<FotoAnimal>) {
    forall f :: f in fotos ==> exists a :: a in animales && a.id == f.animal
  }

  /** Every stored key lies below `next`, the key the next insert takes. */
  predicate KeysBelow(animales: seq<Animal>, next: nat) {
    forall a :: a in animales ==> a.id < next
  }

  /** The first key above every stored one. */
  function NextFreeId(animales: seq<Animal>): (n: nat)
    ensures KeysBelow(animales, n)
  {
    if animales == [] then 1
    else
      var rest := NextFreeId(animales[1..]);
      assert animales == [animales[0]] + animales[1..];
      if animales[0].id < rest then rest else animales[0].id + 1
  }

  /** The row a validated draft is saved as: every writable field as sent,
      the key and the two timestamps set by the database. */
  function FromDraft(id: nat, d: AnimalDraft, createdAt: Stamp, updatedAt: Stamp): (a: Animal)
    requires d.edad >= 0
    ensures Writable(a) == d
    ensures a.id == id && a.createdAt == createdAt && a.updatedAt == updatedAt
  {
    Animal(id, d.nombre, d.tipoAnimal, d.raza, d.edad, d.tamano, d.sexo, d.descripcion,
           d.problemasFisicos, d.problemasComportamiento, d.estado, d.fechaIngreso, d.fechaAdopcion,
           d.esterilizado, d.vacunado, d.chip, d.fotoPrincipal, d.urgente, d.visible, createdAt, updatedAt)
  }

  /** A POST of only the required fields stores the animal `NewAnimal`
      describes, with the name and breed stripped. */
  lemma RequiredOnlyPost(id: nat, nombre: string, raza: string, edad: nat, today: Date, now: Stamp)
    requires ValidateDraft(DefaultedDraft(nombre, raza, edad, today)).Ok?
    ensures FromDraft(id, ValidateDraft(DefaultedDraft(nombre, raza, edad, today)).value, now, now)
      == NewAnimal(id, Strip(nombre), Strip(raza), edad, today, now)
  {
    assert Strip("") == [];
  }

  /** The table with the row keyed `id` replaced by `a`. */
  function Replaced(animales: seq<Animal>, id: nat, a: Animal): (r: seq<Animal>)
    ensures |r| == |animales|
    ensures forall i :: 0 <= i < |r| ==> r[i] == if animales[i].id == id then a else animales[i]
  {
    seq(|animales|, i requires 0 <= i < |animales| => if animales[i].id == id then a else animales[i])
  }

  /** The table without the row keyed `id`. */
  function WithoutAnimal(animales: seq<Animal>, id: nat): seq<Animal> {
    Seqs.Filter((a: Animal) => a.id != id, animales)
  }

  /** The photos that do not belong to animal `id`. */
  function WithoutFotosOf(fotos: seq<FotoAnimal>, id: nat): seq<FotoAnimal> {
    Seqs.Filter((f: FotoAnimal) => f.animal != id, fotos)
  }

  lemma ConsUnique(x: Animal, r: seq<Animal>)
    requires UniqueIds(r) && forall b :: b in r ==> b.id != x.id
    ensures UniqueIds([x] + r)
  {
    var w := [x] + r;
    forall i, j | 0 <= i < j < |w| ensures w[i].id != w[j].id {
      assert w[j] == r[j - 1];
      if i == 0 {
        assert r[j - 1] in r;
      } else {
        assert w[i] == r[i - 1];
      }
    }
  }

  /** Keys stay unique when rows are dropped. */
  lemma {:induction false} WithoutAnimalUnique(animales: seq<Animal>, id: nat)
    requires UniqueIds(animales)
    ensures UniqueIds(WithoutAnimal(animales, id))
  {
    if animales != [] {
      var t := animales[1..];
      assert UniqueIds(t) by {
        forall i, j | 0 <= i < j < |t| ensures t[i].id != t[j].id {
          assert t[i] == animales[i + 1] && t[j] == animales[j + 1];
        }
      }
      WithoutAnimalUnique(t, id);
      var r := WithoutAnimal(t, id);
      if animales[0].id != id {
        forall b | b in r ensures b.id != animales[0].id {
          var k :| 0 <= k < |t| && t[k] == b;
          assert animales[k + 1] == b;
        }
        var w := [animales[0]] + r;
        ConsUnique(animales[0], r);
        assert w == WithoutAnimal(animales, id);
      }
    }
  }

  /** Appending a row under the next free key keeps keys unique and below
      the advanced counter, and every photo's owner present. */
  lemma AppendKeepsValid(animales: seq<Animal>, fotos: seq<FotoAnimal>, next: nat, a: Animal)
    requires UniqueIds(animales) && KeysBelow(animales, next) && Integrity(animales, fotos)
    requires a.id == next
    ensures UniqueIds(animales + [a]) && KeysBelow(animales + [a], next + 1)
    ensures Integrity(animales + [a], fotos)
  {
    var r := animales + [a];
    forall i, j | 0 <= i < j < |r| ensures r[i].id != r[j].id {
      if j == |animales| {
        assert r[i] == animales[i] && animales[i] in animales;
      } else {
        assert r[i] == animales[i] && r[j] == animales[j];
      }
    }
    forall f | f in fotos ensures exists b :: b in r && b.id == f.animal {
      var b :| b in animales && b.id == f.animal;
      assert b in r;
    }
  }

  /** Deleting an animal together with its photos leaves every remaining
      photo with its owner, and removes exactly that animal and its photos. */
  lemma CascadeKeepsIntegrity(animales: seq<Animal>, fotos: seq<FotoAnimal>, id: nat)
    requires Integrity(animales, fotos) && UniqueIds(animales)
    ensures Integrity(WithoutAnimal(animales, id), WithoutFotosOf(fotos, id))
    ensures UniqueIds(WithoutAnimal(animales, id))
    ensures forall f :: f in WithoutFotosOf(fotos, id) <==> f in fotos && f.animal != id
    ensures forall a :: a in WithoutAnimal(animales, id) <==> a in animales && a.id != id
  {
    var rest := WithoutAnimal(animales, id);
    forall f | f in WithoutFotosOf(fotos, id)
      ensures exists a :: a in rest && a.id == f.animal
    {
      var a :| a in animales && a.id == f.animal;
      assert a in rest;
    }
    WithoutAnimalUnique(animales, id);
  }

  /** Deleting only the animal would leave its photos without an owner. */
  lemma CascadeNeeded(animales: seq<Animal>, fotos: seq<FotoAnimal>, f: FotoAnimal)
    requires f in fotos
    ensures !Integrity(WithoutAnimal(animales, f.animal), fotos)
  {
  }

  /** Replacing a row by one with the same key keeps every owner present
      and every key unique. */
  lemma ReplacedKeepsIntegrity(animales: seq<Animal>, fotos: seq<FotoAnimal>, id: nat, a: Animal)
    requires Integrity(animales, fotos) && UniqueIds(animales) && a.id == id
    ensures Integrity(Replaced(animales, id, a), fotos)
    ensures UniqueIds(Replaced(animales, id, a))
    ensures forall next: nat :: KeysBelow(animales, next) && id < next ==> KeysBelow(Replaced(animales, id, a), next)
  {
    var r := Replaced(animales, id, a);
    forall b | b in r ensures exists i :: 0 <= i < |animales| && b.id == animales[i].id {
      var i :| 0 <= i < |r| && r[i] == b;
    }
    forall f | f in fotos ensures exists b :: b in r && b.id == f.animal {
      var b :| b in animales && b.id == f.animal;
      var i :| 0 <= i < |animales| && animales[i] == b;
      assert r[i].id == b.id;
    }
  }

  /** What the detail lookup finds is a stored row with that key. */
  lemma LookupInStore(animales: seq<Animal>, q: QueryParams, id: nat)
    requires Lookup(animales, q, id).Ok? && Lookup(animales, q, id).value.Some?
    ensures Lookup(animales, q, id).value.value in animales
    ensures Lookup(animales, q, id).value.value.id == id
  {
    LookupExact(animales, q, id);
  }

  /** The outcome of a write request. */
  datatype WriteOutcome =
    | NotAllowed                    // IsAuthenticatedOrReadOnly refused the method
    | BadQuery(e: QueryError)       // an age filter `int()` cannot read
    | NotFound                      // get_object found no row
    | Invalid(errors: FieldErrors)  // the serializer refused the draft
    | Created(id: nat)
    | Updated(id: nat)
    | Deleted

  class AnimalStore {
    var animales: seq<Animal>
    var fotos: seq<FotoAnimal>
    var nextId: nat

    ghost predicate Valid()
      reads this
    {
      UniqueIds(animales) && KeysBelow(animales, nextId) && Integrity(animales, fotos)
    }

    /** A store holding the given rows. */
    constructor (animales0: seq<Animal>, fotos0: seq<FotoAnimal>)
      requires UniqueIds(animales0) && Integrity(animales0, fotos0)
      ensures Valid()
      ensures animales == animales0 && fotos == fotos0
    {
      animales := animales0;
      fotos := fotos0;
      nextId := NextFreeId(animales0);
    }

    /** Saves a validated draft under the next free key. */
    method Insert(v: AnimalDraft, now: Stamp) returns (id: nat)
      requires Valid() && v.edad >= 0
      modifies this
      ensures Valid()
      ensures id == old(nextId) && nextId == old(nextId) + 1
      ensures animales == old(animales) + [FromDraft(id, v, now, now)] && fotos == old(fotos)
    {
      var a := FromDraft(nextId, v, now, now);
      AppendKeepsValid(animales, fotos, nextId, a);
      animales := animales + [a];
      id := nextId;
      nextId := nextId + 1;
    }

    /** `POST /api/animales/`. */
    method Create(authenticated: bool, d: AnimalDraft, now: Stamp) returns (out: WriteOutcome)
      requires Valid()
      modifies this
      ensures Valid()
      ensures !authenticated ==> out == NotAllowed && unchanged(this)
      ensures authenticated && ValidateDraft(d).Err? ==> out == Invalid(ValidateDraft(d).error) && unchanged(this)
      ensures authenticated && ValidateDraft(d).Ok? ==>
        && out == Created(old(nextId))
        && animales == old(animales) + [FromDraft(old(nextId), ValidateDraft(d).value, now, now)]
        && fotos == old(fotos)
        && nextId == old(nextId) + 1
    {
      if !HasPermission(POST, authenticated) {
        return NotAllowed;
      }
      var checked := ValidateDraft(d);
      if checked.Err? {
        return Invalid(checked.error);
      }
      var id := Insert(checked.value, now);
      out := Created(id);
    }

    /** Replaces the row keyed `id` by the validated draft, keeping its
        creation time. */
    method Replace(id: nat, v: AnimalDraft, createdAt: Stamp, now: Stamp)
      requires Valid() && v.edad >= 0 && id < nextId
      modifies this
      ensures Valid()
      ensures animales == Replaced(old(animales), id, FromDraft(id, v, createdAt, now))
      ensures fotos == old(fotos) && nextId == old(nextId)
    {
      var a := FromDraft(id, v, createdAt, now);
      ReplacedKeepsIntegrity(animales, fotos, id, a);
      animales := Replaced(animales, id, a);
    }

    /** `PUT /api/animales/{id}/`: the row keeps its key, creation time and
      photos; `updated_at` becomes `now`. */
    method Update(authenticated: bool, q: QueryParams, id: nat, d: AnimalDraft, now: Stamp) returns (out: WriteOutcome)
      requires Valid()
      modifies this
      ensures Valid()
      ensures !authenticated ==> out == NotAllowed && unchanged(this)
      ensures authenticated && Lookup(old(animales), q, id).Err? ==>
        out == BadQuery(Lookup(old(animales), q, id).error) && unchanged(this)
      ensures authenticated && Lookup(old(animales), q, id) == Ok(None) ==> out == NotFound && unchanged(this)
      ensures (authenticated && Lookup(old(animales), q, id).Ok? && Lookup(old(animales), q, id).value.Some?
        && ValidateDraft(d).Err?) ==> out == Invalid(ValidateDraft(d).error) && unchanged(this)
      ensures (authenticated && Lookup(old(animales), q, id).Ok? && Lookup(old(animales), q, id).value.Some?
        && ValidateDraft(d).Ok?) ==>
        && out == Updated(id)
        && animales == Replaced(old(animales), id,
             FromDraft(id, ValidateDraft(d).value, Lookup(old(animales), q, id).value.value.createdAt, now))
        && fotos == old(fotos) && nextId == old(nextId)
    {
      if !HasPermission(PUT, authenticated) {
        return NotAllowed;
      }
      var found := Lookup(animales, q, id);
      if found.Err? {
        return BadQuery(found.error);
      }
      if found.value.None? {
        return NotFound;
      }
      var checked := ValidateDraft(d);
      if checked.Err? {
        return Invalid(checked.error);
      }
      LookupInStore(animales, q, id);
      Replace(id, checked.value, found.value.value.createdAt, now);
      out := Updated(id);
    }

    /** `DELETE /api/animales/{id}/`: the row goes, and its photos with it. */
    method Destroy(authenticated: bool, q: QueryParams, id: nat) returns (out: WriteOutcome)
      requires Valid()
      modifies this
      ensures Valid()
      ensures !authenticated ==> out == NotAllowed && unchanged(this)
      ensures authenticated && Lookup(old(animales), q, id).Err? ==>
        out == BadQuery(Lookup(old(animales), q, id).error) && unchanged(this)
      ensures authenticated && Lookup(old(animales), q, id) == Ok(None) ==> out == NotFound && unchanged(this)
      ensures authenticated && Lookup(old(animales), q, id).Ok? && Lookup(old(animales), q, id).value.Some? ==>
        && out == Deleted
        && animales == WithoutAnimal(old(animales), id)
        && fotos == WithoutFotosOf(old(fotos), id)
        && nextId == old(nextId)
    {
      if !HasPermission(DELETE, authenticated) {
        return NotAllowed;
      }
      var found := Lookup(animales, q, id);
      if found.Err? {
        return BadQuery(found.error);
      }
      if found.value.None? {
        return NotFound;
      }
      Remove(id);
      out := Deleted;
    }

    /** Deletes the row keyed `id` and, by the cascade, its photos. */
    method Remove(id: nat)
      requires Valid()
      modifies this
      ensures Valid()
      ensures animales == WithoutAnimal(old(animales), id) && fotos == WithoutFotosOf(old(fotos), id)
      ensures nextId == old(nextId)
    {
      CascadeKeepsIntegrity(animales, fotos, id);
      animales := WithoutAnimal(animales, id);
      fotos := WithoutFotosOf(fotos, id);
    }
  }
}
