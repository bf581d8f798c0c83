/**
 * The JavaScript and HTTP vocabulary the route handlers are written in:
 * request fields that may be absent, truthiness, the `supplied || current`
 * patch idiom, the plain objects used as TypeORM where-clauses, and the
 * status codes the handlers answer with.
 */
module Js {

  /** A request-body or query field: `None` is `undefined`. */
  datatype Option<+T> = None | Some(value: T)

  // Status codes the handlers answer with.
  const Ok: int := 200
  const Created: int := 201
  const BadRequest: int := 400
  const Unauthorized: int := 401
  const Forbidden: int := 403
  const NotFound: int := 404

  /** A string is truthy in JavaScript unless it is undefined or "". */
  predicate TruthyStr(v: Option<string>)
  {
    v.Some? && v.value != ""
  }

  /** A number is truthy in JavaScript unless it is undefined or 0 (NaN is not modelled). */
  predicate TruthyNum(v: Option<int>)
  {
    v.Some? && v.value != 0
  }

  /** `supplied || current` on strings: the supplied value wins only when truthy. */
  function OrStr(supplied: Option<string>, current: Option<string>): (r: Option<string>)
    ensures r == supplied || r == current
    ensures TruthyStr(supplied) ==> r == supplied
    ensures !TruthyStr(supplied) ==> r == current
    ensures TruthyStr(supplied) <==> (r == supplied && TruthyStr(r))
  {
    if TruthyStr(supplied) then supplied else current
  }

  /** `supplied || current` on numbers: the supplied value wins only when truthy. */
  function OrNum(supplied: Option<int>, current: Option<int>): (r: Option<int>)
    ensures r == supplied || r == current
    ensures TruthyNum(supplied) ==> r == supplied
    ensures !TruthyNum(supplied) ==> r == current
    ensures TruthyNum(supplied) <==> (r == supplied && TruthyNum(r))
  {
    if TruthyNum(supplied) then supplied else current
  }

  /** Applying the same patch value twice is the same as applying it once. */
  lemma OrIdempotent(s: Option<string>, n: Option<int>, cs: Option<string>, cn: Option<int>)
    ensures OrStr(s, OrStr(s, cs)) == OrStr(s, cs)
    ensures OrNum(n, OrNum(n, cn)) == OrNum(n, cn)
  {
  }

  /** The patch can never clear a field: a truthy current value stays truthy. */
  lemma OrNeverClears(s: Option<string>, n: Option<int>, cs: Option<string>, cn: Option<int>)
    ensures TruthyStr(cs) ==> TruthyStr(OrStr(s, cs))
    ensures TruthyNum(cn) ==> TruthyNum(OrNum(n, cn))
  {
  }

  /**
   * What TypeORM's `save` leaves in a column after the entity's property was
   * set to a request value: an `undefined` property is skipped, so the
   * stored value stays; any other value is written.
   */
  function Saved<T>(supplied: Option<T>, stored: Option<T>): (r: Option<T>)
    ensures supplied.Some? ==> r == supplied
    ensures supplied.None? ==> r == stored
  {
    if supplied.Some? then supplied else stored
  }

  /** Saving can replace a stored value but never clear it. */
  lemma SavedNeverClears<T>(supplied: Option<T>, stored: Option<T>)
    ensures stored.Some? ==> Saved(supplied, stored).Some?
    ensures Saved(supplied, Saved(supplied, stored)) == Saved(supplied, stored)
  {
  }

  /** A value stored in a where-clause object: a string, a number or a nested object. */
  datatype WhereValue = Str(s: string) | Num(n: int) | Obj(fields: map<string, WhereValue>)

  /** A where-clause object, keyed by property name. */
  type Where = map<string, WhereValue>
}
