/**
 * The service routes of routes/services.ts: the query filter of `GET /`,
 * and `POST /`, `PUT /:id` and `DELETE /:id` over the service repository.
 * The three mutating routes sit behind `requireRole(['provider'])`, which
 * answers 403 before the handler runs; update and delete then answer 404
 * for a missing service before 403 for a provider who does not own it.
 */
module Services {
  import opened Js

  /** The role that `requireRole(['provider'])` admits. */
  const ProviderRole: string := "provider"

  /** The request-body fields of a service; any of them may be absent. */
  datatype ServiceFields = ServiceFields(
    title: Option<string>,
    description: Option<string>,
    price: Option<int>,
    duration: Option<int>,
    kind: Option<string>,
    imageUrl: Option<string>)

  datatype Service = Service(id: int, fields: ServiceFields, providerId: int)

  /**
   * The `Object.assign(service, { f: f || service.f, ... })` patch: each
   * field takes the supplied value when that value is truthy and keeps the
   * current one otherwise, so a price or duration of 0 never overwrites.
   */
  function Patch(current: ServiceFields, body: ServiceFields): (r: ServiceFields)
    ensures TruthyStr(body.title) ==> r.title == body.title
    ensures !TruthyStr(body.title) ==> r.title == current.title
    ensures TruthyStr(body.description) ==> r.description == body.description
    ensures !TruthyStr(body.description) ==> r.description == current.description
    ensures TruthyNum(body.price) ==> r.price == body.price
    ensures !TruthyNum(body.price) ==> r.price == current.price
    ensures TruthyNum(body.duration) ==> r.duration == body.duration
    ensures !TruthyNum(body.duration) ==> r.duration == current.duration
    ensures TruthyStr(body.kind) ==> r.kind == body.kind
    ensures !TruthyStr(body.kind) ==> r.kind == current.kind
    ensures TruthyStr(body.imageUrl) ==> r.imageUrl == body.imageUrl
    ensures !TruthyStr(body.imageUrl) ==> r.imageUrl == current.imageUrl
  {
    ServiceFields(
      OrStr(body.title, current.title),
      OrStr(body.description, current.description),
      OrNum(body.price, current.price),
      OrNum(body.duration, current.duration),
      OrStr(body.kind, current.kind),
      OrStr(body.imageUrl, current.imageUrl))
  }

  /** A supplied price of 0 keeps the old price, whatever else the body says. */
  lemma ZeroPriceKeepsOldPrice(current: ServiceFields, body: ServiceFields)
    requires body.price == Some(0)
    ensures Patch(current, body).price == current.price
  {
  }

  /** Sending the same update twice has the effect of sending it once. */
  lemma PatchIdempotent(current: ServiceFields, body: ServiceFields)
    ensures Patch(Patch(current, body), body) == Patch(current, body)
  {
  }

  /**
   * The where-clause of `GET /`. `type` appears exactly when supplied. A
   * `price` object appears exactly when at least one bound is supplied, and
   * holds `gte` and `lte` exactly for the supplied bounds, converted by
   * `number` (JavaScript's `Number`). Query values are strings, so "0"
   * counts as supplied.
   */
  method BuildFilter(kind: Option<string>, minPrice: Option<string>, maxPrice: Option<string>, number: string -> int)
    returns (where: Where)
    ensures where.Keys <= {"type", "price"}
    ensures "type" in where <==> TruthyStr(kind)
    ensures "type" in where ==> where["type"] == Str(kind.value)
    ensures "price" in where <==> TruthyStr(minPrice) || TruthyStr(maxPrice)
    ensures "price" in where ==> where["price"].Obj? && where["price"].fields.Keys <= {"gte", "lte"}
    ensures "price" in where ==> ("gte" in where["price"].fields <==> TruthyStr(minPrice))
    ensures "price" in where ==> ("lte" in where["price"].fields <==> TruthyStr(maxPrice))
    ensures TruthyStr(minPrice) ==> where["price"].fields["gte"] == Num(number(minPrice.value))
    ensures TruthyStr(maxPrice) ==> where["price"].fields["lte"] == Num(number(maxPrice.value))
  {
    where := map[];
    if TruthyStr(kind) {
      where := where["type" := Str(kind.value)];
    }
    if TruthyStr(minPrice) || TruthyStr(maxPrice) {
      var price: map<string, WhereValue> := map[];
      if TruthyStr(minPrice) {
        price := price["gte" := Num(number(minPrice.value))];
      }
      if TruthyStr(maxPrice) {
        price := price["lte" := Num(number(maxPrice.value))];
      }
      where := where["price" := Obj(price)];
    }
  }

  /** The service repository: services by id, and the next id the database will assign. */
  class ServiceRepository {
    var services: map<int, Service>
    var nextId: int

    ghost predicate Valid()
      reads this
    {
      forall k :: k in services ==> services[k].id == k && k < nextId
    }

    constructor ()
      ensures Valid() && services == map[]
    {
      services := map[];
      nextId := 1;
    }

    /**
     * `POST /`: 403 unless the caller has the provider role, and nothing is
     * created; otherwise the new service has the body's fields and the caller
     * as its provider.
     */
    method CreateService(userId: int, role: string, body: ServiceFields) returns (code: int, id: int)
      requires Valid()
      modifies this
      ensures Valid()
      ensures code == Forbidden <==> role != ProviderRole
      ensures code == Created <==> role == ProviderRole
      ensures code != Created ==> services == old(services) && nextId == old(nextId)
      ensures code == Created ==> id !in old(services) && services == old(services)[id := Service(id, body, userId)]
    {
      id := 0;
      if role != ProviderRole {
        return Forbidden, id;
      }
      id := nextId;
      nextId := nextId + 1;
      services := services[id := Service(id, body, userId)];
      code := Created;
    }

    /**
     * `PUT /:id`: 403 without the provider role, then 404 for a missing
     * service, then 403 for a provider who does not own it; all three leave
     * the repository unchanged. Otherwise only that service's fields change,
     * by the truthiness patch; its id and provider stay.
     */
    method UpdateService(id: int, userId: int, role: string, body: ServiceFields) returns (code: int)
      requires Valid()
      modifies this
      ensures Valid() && nextId == old(nextId)
      ensures code == NotFound <==> role == ProviderRole && id !in old(services)
      ensures code == Forbidden <==>
        role != ProviderRole || (id in old(services) && old(services)[id].providerId != userId)
      ensures code == Ok <==> role == ProviderRole && id in old(services) && old(services)[id].providerId == userId
      ensures code != Ok ==> services == old(services)
      ensures code == Ok ==>
        services == old(services)[id := old(services)[id].(fields := Patch(old(services)[id].fields, body))]
    {
      if role != ProviderRole {
        return Forbidden;
      }
      if id !in services {
        return NotFound;
      }
      var service := services[id];
      if service.providerId != userId {
        return Forbidden;
      }
      service := service.(fields := Patch(service.fields, body));
      services := services[id := service];
      code := Ok;
    }

    /**
     * `DELETE /:id`: 403 without the provider role, then 404 for a missing
     * service, then 403 for a provider who does not own it, and the service
     * remains; otherwise exactly that service is removed.
     */
    method DeleteService(id: int, userId: int, role: string) returns (code: int)
      requires Valid()
      modifies this
      ensures Valid() && nextId == old(nextId)
      ensures code == NotFound <==> role == ProviderRole && id !in old(services)
      ensures code == Forbidden <==>
        role != ProviderRole || (id in old(services) && old(services)[id].providerId != userId)
      ensures code == Ok <==> role == ProviderRole && id in old(services) && old(services)[id].providerId == userId
      ensures code != Ok ==> services == old(services)
      ensures code == Ok ==> services == old(services) - {id}
    {
      if role != ProviderRole {
        return Forbidden;
      }
      if id !in services {
        return NotFound;
      }
      if services[id].providerId != userId {
        return Forbidden;
      }
      services := services - {id};
      code := Ok;
    }
  }
}
