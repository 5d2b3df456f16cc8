/** Structural checks on request bodies (src/worker/utils/validation.js). */
module Validation {
  import opened Json

  /** The members a submitted envelope must have, in the order they are checked. */
  const RequiredFields: seq<string> := ["encrypted", "signature", "type"]

  /** `validatePayload`: a truthy object value owning every required member. */
  function ValidatePayload(payload: Value): (r: bool)
    ensures r <==> payload.Obj? && "encrypted" in payload.fields
                   && "signature" in payload.fields && "type" in payload.fields
  {
    if !Truthy(payload) || !TypeofObject(payload) then false
    else
      assert RequiredFields[0] == "encrypted" && RequiredFields[1] == "signature" && RequiredFields[2] == "type";
      assert payload.Arr? ==> !HasOwn(payload, RequiredFields[0]) by {
        if payload.Arr? { NotAnIndex("encrypted", |payload.items|); }
      }
      forall i :: 0 <= i < |RequiredFields| ==> HasOwn(payload, RequiredFields[i])
  }

  /** `validateQuery`: a truthy object value owning an `id` member. */
  function ValidateQuery(query: Value): (r: bool)
    ensures r <==> query.Obj? && "id" in query.fields
  {
    if !Truthy(query) || !TypeofObject(query) then false
    else
      assert query.Arr? ==> !HasOwn(query, "id") by {
        if query.Arr? { NotAnIndex("id", |query.items|); }
      }
      HasOwn(query, "id")
  }

  /** Extra members never turn an accepted payload into a rejected one. */
  lemma PayloadIgnoresExtraFields(f: map<string, Value>, g: map<string, Value>)
    requires f.Keys <= g.Keys
    requires ValidatePayload(Obj(f))
    ensures ValidatePayload(Obj(g))
  {
  }

  /** No value that is not an object (null, undefined, a primitive, an array) is accepted. */
  lemma NonObjectsRejected(v: Value)
    requires !v.Obj?
    ensures !ValidatePayload(v) && !ValidateQuery(v)
  {
  }
}
