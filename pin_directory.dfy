/**
 * GET /api/pincode/:pin of server.js: a fixed three-entry table from PIN code
 * to city and state.  The lookup accepts a key of any length; whatever is not
 * a table entry is answered with 404.
 *
 * The handler indexes a plain JavaScript object literal, so a key naming a
 * member inherited from Object.prototype also yields a truthy value.
 * LookupPinAsWritten models that; LookupPin is the lookup restricted to the
 * table's own entries, which the rest of the model uses.
 */
module PinDirectory {
  import opened AddressBook

  const InvalidPinError: string := "Invalid PIN Code"

  const PinTable: map<string, PinDetails> := map[
    "600001" := PinDetails("Chennai", "Tamil Nadu"),
    "110001" := PinDetails("New Delhi", "Delhi"),
    "400001" := PinDetails("Mumbai", "Maharashtra")]

  /** The names an object literal inherits from Object.prototype (all truthy). */
  const ObjectPrototypeNames: set<string> := {
    "constructor", "__proto__", "__defineGetter__", "__defineSetter__",
    "__lookupGetter__", "__lookupSetter__", "hasOwnProperty", "isPrototypeOf",
    "propertyIsEnumerable", "toLocaleString", "toString", "valueOf"}

  const NotFound: HttpError := HttpError(404, InvalidPinError, None)

  /** The PIN lookup on the table's own entries. */
  function LookupPin(pin: string): (r: Response<PinDetails>)
    ensures r.Ok? <==> pin == "600001" || pin == "110001" || pin == "400001"
    ensures r.Ok? ==> r.body.city != "" && r.body.state != ""
    ensures r.Fail? ==> r.Status() == 404 && r.err.error == "Invalid PIN Code"
  {
    if pin in PinTable then Ok(PinTable[pin]) else Fail(NotFound)
  }

  /** The three seeded codes and what they resolve to. */
  lemma SeededCodes()
    ensures LookupPin("600001") == Ok(PinDetails("Chennai", "Tamil Nadu"))
    ensures LookupPin("110001") == Ok(PinDetails("New Delhi", "Delhi"))
    ensures LookupPin("400001") == Ok(PinDetails("Mumbai", "Maharashtra"))
    ensures LookupPin("999999") == Fail(NotFound) && LookupPin("000000") == Fail(NotFound)
  {
  }

  /** The body sent back by `res.json(pinDetails)` as the client reads it. */
  function ReplyBody(r: Response<PinDetails>): Response<PinJson>
  {
    match r
    case Ok(d) => Ok(AsJson(d))
    case Fail(e) => Fail(e)
  }

  /**
   * The handler as written: `pinCodeData[pin]` also finds inherited members
   * (functions, and Object.prototype for "__proto__").  `res.json` of those
   * sends a 200 whose body has neither `city` nor `state`.
   */
  function LookupPinAsWritten(pin: string): (r: Response<PinJson>)
    ensures pin !in ObjectPrototypeNames ==> r == ReplyBody(LookupPin(pin))
    ensures pin in ObjectPrototypeNames ==> r == Ok(PinJson(None, None))
  {
    if pin in PinTable then Ok(AsJson(PinTable[pin]))
    else if pin in ObjectPrototypeNames then Ok(PinJson(None, None))
    else Fail(NotFound)
  }

  /** A key the handler was not meant to know is answered with 200 instead of 404. */
  lemma InheritedNameAnswered()
    ensures LookupPinAsWritten("toString").Status() == 200
    ensures LookupPinAsWritten("toString").body.city.None?
    ensures LookupPin("toString").Status() == 404
  {
  }

  /** No inherited name has six characters, so on six-character codes both lookups agree. */
  lemma AsWrittenAgreesOnSixChars(pin: string)
    requires |pin| == 6
    ensures LookupPinAsWritten(pin) == ReplyBody(LookupPin(pin))
  {
  }
}
