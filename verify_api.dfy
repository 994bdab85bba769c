/**
 * The customer-details submission action: it reads six address fields from the JSON
 * body, rejects the request when any is missing or empty, and otherwise inserts one
 * record into the user-verification table. The table is a list standing in for the ORM
 * table.
 */
module VerifyApi {
  import opened Wrappers
  import opened Js

  /** The request body: the value `request.json()` gives, or the text of the error it throws. */
  datatype Body = Json(value: JsValue) | Unparseable(message: string)

  /** One inserted record: the six fields exactly as posted. */
  datatype UserVerification = UserVerification(
    firstName: JsValue,
    lastName: JsValue,
    streetAddress: JsValue,
    city: JsValue,
    zipCode: JsValue,
    country: JsValue)

  /** The six fields the action requires, in the order it destructures them. */
  const RequiredFields: seq<string> := ["firstName", "lastName", "streetAddress", "city", "zipCode", "country"]

  /** The record destructured from the body. */
  function RecordOf(body: JsValue): (r: UserVerification)
    ensures r.firstName == Prop(body, "firstName") && r.lastName == Prop(body, "lastName")
    ensures r.streetAddress == Prop(body, "streetAddress") && r.city == Prop(body, "city")
    ensures r.zipCode == Prop(body, "zipCode") && r.country == Prop(body, "country")
  {
    UserVerification(Prop(body, "firstName"), Prop(body, "lastName"), Prop(body, "streetAddress"),
                     Prop(body, "city"), Prop(body, "zipCode"), Prop(body, "country"))
  }

  /** The guard: every one of the six fields is truthy. */
  predicate Complete(r: UserVerification) {
    !Falsy(r.firstName) && !Falsy(r.lastName) && !Falsy(r.streetAddress)
    && !Falsy(r.city) && !Falsy(r.zipCode) && !Falsy(r.country)
  }

  /** The guard fails exactly when some required field of the body is falsy. */
  lemma CompleteIff(body: JsValue)
    ensures Complete(RecordOf(body)) <==> forall i :: 0 <= i < |RequiredFields| ==> !Falsy(Prop(body, RequiredFields[i]))
  {
    if !Complete(RecordOf(body)) {
      var r := RecordOf(body);
      if Falsy(r.firstName) { assert Falsy(Prop(body, RequiredFields[0])); }
      else if Falsy(r.lastName) { assert Falsy(Prop(body, RequiredFields[1])); }
      else if Falsy(r.streetAddress) { assert Falsy(Prop(body, RequiredFields[2])); }
      else if Falsy(r.city) { assert Falsy(Prop(body, RequiredFields[3])); }
      else if Falsy(r.zipCode) { assert Falsy(Prop(body, RequiredFields[4])); }
      else { assert Falsy(Prop(body, RequiredFields[5])); }
    }
  }

  /** The action's JSON reply: its status, `success` and `message` (absent on success). */
  datatype Reply = Reply(status: nat, success: bool, message: Option<string>)

  const MissingFieldsMessage := "All fields are required"
  const FallbackMessage := "Internal server error"

  /** The 500 reply for a thrown error: its message, or the fallback when that is empty. */
  function ErrorReply(message: string): (r: Reply)
    ensures r.status == 500 && !r.success
    ensures r.message == Some(if message == "" then FallbackMessage else message)
  {
    Reply(500, false, Some(if message == "" then FallbackMessage else message))
  }

  const Accepted := Reply(200, true, None)
  const Rejected := Reply(400, false, Some(MissingFieldsMessage))

  /** A body that cannot be destructured: `null` or `undefined`. */
  predicate Nullish(v: JsValue) {
    v.Null? || v.Undefined?
  }

  /** The message of the TypeError thrown when destructuring a nullish body. */
  function DestructureMessage(v: JsValue): (m: string)
    ensures m != ""
  {
    "Cannot destructure property 'firstName' of 'body' as it is " + (if v.Null? then "null" else "undefined") + "."
  }

  /** The user-verification table. */
  class VerificationTable {
    var records: seq<UserVerification>

    constructor (initial: seq<UserVerification>)
      ensures records == initial
    {
      records := initial;
    }

    /**
     * The `action`: `body` is what the request's JSON parses to; `storeError` is the
     * message of the error the insert throws, if it does.
     */
    method Action(body: Body, storeError: Option<string>) returns (reply: Reply)
      modifies this
      ensures body.Unparseable? ==> reply == ErrorReply(body.message) && records == old(records)
      ensures body.Json? && Nullish(body.value) ==>
                reply == ErrorReply(DestructureMessage(body.value)) && records == old(records)
      ensures body.Json? && !Nullish(body.value) && !Complete(RecordOf(body.value)) ==>
                reply == Rejected && records == old(records)
      ensures body.Json? && !Nullish(body.value) && Complete(RecordOf(body.value)) ==>
                if storeError.Some? then reply == ErrorReply(storeError.value) && records == old(records)
                else reply == Accepted && records == old(records) + [RecordOf(body.value)]
    {
      if body.Unparseable? {
        return ErrorReply(body.message);
      }
      if Nullish(body.value) {
        return ErrorReply(DestructureMessage(body.value));
      }
      var r := RecordOf(body.value);
      if Falsy(r.firstName) || Falsy(r.lastName) || Falsy(r.streetAddress) || Falsy(r.city) || Falsy(r.zipCode) || Falsy(r.country) {
        return Rejected;
      }
      if storeError.Some? {
        return ErrorReply(storeError.value);
      }
      records := records + [r];
      reply := Accepted;
    }
  }
}
