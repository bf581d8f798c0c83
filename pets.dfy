/**
 * The pet routes of routes/pets.ts: the query filter of `GET /`, and
 * `POST /`, `PUT /:id` and `DELETE /:id` over the pet repository. The
 * last two are gated by ownership: 404 for a missing pet comes before 403
 * for a caller who does not own it.
 */
module Pets {
  import opened Js

  /** The request-body fields of a pet; any of them may be absent. */
  datatype PetFields = PetFields(
    name: Option<string>,
    kind: Option<string>,
    breed: Option<string>,
    age: Option<int>,
    description: Option<string>,
    imageUrl: Option<string>)

  datatype Pet = Pet(id: int, fields: PetFields, ownerId: int)

  /**
   * The `Object.assign(pet, { f: f || pet.f, ... })` patch: each field takes
   * the supplied value when that value is truthy and keeps the current one
   * otherwise, so an age of 0 or an empty name never overwrites.
   */
  function Patch(current: PetFields, body: PetFields): (r: PetFields)
    ensures TruthyStr(body.name) ==> r.name == body.name
    ensures !TruthyStr(body.name) ==> r.name == current.name
    ensures TruthyStr(body.kind) ==> r.kind == body.kind
    ensures !TruthyStr(body.kind) ==> r.kind == current.kind
    ensures TruthyStr(body.breed) ==> r.breed == body.breed
    ensures !TruthyStr(body.breed) ==> r.breed == current.breed
    ensures TruthyNum(body.age) ==> r.age == body.age
    ensures !TruthyNum(body.age) ==> r.age == current.age
    ensures TruthyStr(body.description) ==> r.description == body.description
    ensures !TruthyStr(body.description) ==> r.description == current.description
    ensures TruthyStr(body.imageUrl) ==> r.imageUrl == body.imageUrl
    ensures !TruthyStr(body.imageUrl) ==> r.imageUrl == current.imageUrl
  {
    PetFields(
      OrStr(body.name, current.name),
      OrStr(body.kind, current.kind),
      OrStr(body.breed, current.breed),
      OrNum(body.age, current.age),
      OrStr(body.description, current.description),
      OrStr(body.imageUrl, current.imageUrl))
  }

  /** A body that supplies nothing truthy (every field absent, "" or 0) leaves the pet as it is. */
  lemma EmptyPatchIsIdentity(current: PetFields, body: PetFields)
    requires !TruthyStr(body.name) && !TruthyStr(body.kind) && !TruthyStr(body.breed)
    requires !TruthyNum(body.age) && !TruthyStr(body.description) && !TruthyStr(body.imageUrl)
    ensures Patch(current, body) == current
  {
  }

  /** Sending the same update twice has the effect of sending it once. */
  lemma PatchIdempotent(current: PetFields, body: PetFields)
    ensures Patch(Patch(current, body), body) == Patch(current, body)
  {
  }

  /**
   * The where-clause of `GET /`: `type` and `breed` appear exactly when the
   * query supplies them with a truthy value, and nothing else appears.
   */
  method BuildFilter(kind: Option<string>, breed: Option<string>) returns (where: Where)
    ensures where.Keys <= {"type", "breed"}
    ensures "type" in where <==> TruthyStr(kind)
    ensures "type" in where ==> where["type"] == Str(kind.value)
    ensures "breed" in where <==> TruthyStr(breed)
    ensures "breed" in where ==> where["breed"] == Str(breed.value)
  {
    where := map[];
    if TruthyStr(kind) {
      where := where["type" := Str(kind.value)];
    }
    if TruthyStr(breed) {
      where := where["breed" := Str(breed.value)];
    }
  }

  /** The pet repository: pets by id, and the next id the database will assign. */
  class PetRepository {
    var pets: map<int, Pet>
    var nextId: int

    ghost predicate Valid()
      reads this
    {
      forall k :: k in pets ==> pets[k].id == k && k < nextId
    }

    constructor ()
      ensures Valid() && pets == map[]
    {
      pets := map[];
      nextId := 1;
    }

    /** `POST /`: the new pet has the body's fields and the caller as its owner. */
    method CreatePet(userId: int, body: PetFields) returns (code: int, id: int)
      requires Valid()
      modifies this
      ensures Valid()
      ensures code == Created
      ensures id !in old(pets)
      ensures pets == old(pets)[id := Pet(id, body, userId)]
    {
      id := nextId;
      nextId := nextId + 1;
      pets := pets[id := Pet(id, body, userId)];
      code := Created;
    }

    /**
     * `PUT /:id`: 404 for a missing pet, then 403 for a caller who is not its
     * owner; both leave the repository unchanged. Otherwise only that pet's
     * fields change, by the truthiness patch; its id and owner stay.
     */
    method UpdatePet(id: int, userId: int, body: PetFields) returns (code: int)
      requires Valid()
      modifies this
      ensures Valid() && nextId == old(nextId)
      ensures code == NotFound <==> id !in old(pets)
      ensures code == Forbidden <==> id in old(pets) && old(pets)[id].ownerId != userId
      ensures code == Ok <==> id in old(pets) && old(pets)[id].ownerId == userId
      ensures code != Ok ==> pets == old(pets)
      ensures code == Ok ==> pets == old(pets)[id := old(pets)[id].(fields := Patch(old(pets)[id].fields, body))]
    {
      if id !in pets {
        return NotFound;
      }
      var pet := pets[id];
      if pet.ownerId != userId {
        return Forbidden;
      }
      pet := pet.(fields := Patch(pet.fields, body));
      pets := pets[id := pet];
      code := Ok;
    }

    /**
     * `DELETE /:id`: 404 for a missing pet, then 403 for a caller who is not
     * its owner, and the pet remains; otherwise exactly that pet is removed.
     */
    method DeletePet(id: int, userId: int) returns (code: int)
      requires Valid()
      modifies this
      ensures Valid() && nextId == old(nextId)
      ensures code == NotFound <==> id !in old(pets)
      ensures code == Forbidden <==> id in old(pets) && old(pets)[id].ownerId != userId
      ensures code == Ok <==> id in old(pets) && old(pets)[id].ownerId == userId
      ensures code != Ok ==> pets == old(pets)
      ensures code == Ok ==> pets == old(pets) - {id}
    {
      if id !in pets {
        return NotFound;
      }
      if pets[id].ownerId != userId {
        return Forbidden;
      }
      pets := pets - {id};
      code := Ok;
    }
  }
}
