/**
 * Values exchanged between the address-book client (App.js) and the address
 * service (server.js): address records, the body of a create request, the
 * JSON the PIN-code endpoint answers with, and HTTP error replies.
 */
module AddressBook {

  datatype Option<+T> = None | Some(value: T)

  /** The country the schema fills in when a create request leaves it out. */
  const DefaultCountry: string := "India"

  /**
   * JavaScript truthiness of a string-valued JSON field: a field that is
   * absent (undefined) or holds the empty string is falsy.
   */
  predicate Truthy(v: Option<string>)
  {
    v.Some? && v.value != ""
  }

  /** A stored address document; `id` stands for the generated `_id`. */
  datatype Address = Address(
    id: nat,
    addressLine1: string,
    city: string,
    state: string,
    country: string,
    pinCode: string)

  /** The JSON body of POST /api/addresses: every field may be absent. */
  datatype AddressInput = AddressInput(
    addressLine1: Option<string>,
    city: Option<string>,
    state: Option<string>,
    country: Option<string>,
    pinCode: Option<string>)

  /** Every stored address has the four required fields filled in. */
  predicate WellFormed(a: Address)
  {
    a.addressLine1 != "" && a.city != "" && a.state != "" && a.pinCode != ""
  }

  /** The city/state pair of one PIN-code table entry. */
  datatype PinDetails = PinDetails(city: string, state: string)

  /**
   * The body of a 200 reply of GET /api/pincode/:pin as the client reads it:
   * `response.data.city` and `response.data.state` may be undefined.
   */
  datatype PinJson = PinJson(city: Option<string>, state: Option<string>)

  function AsJson(d: PinDetails): PinJson
  {
    PinJson(Some(d.city), Some(d.state))
  }

  /** A non-2xx reply: its status and the `error` / `details` fields of its body. */
  datatype HttpError = HttpError(status: nat, error: string, details: Option<string>)

  /** A reply of the service: 200 with a JSON body, or an error reply. */
  datatype Response<+T> = Ok(body: T) | Fail(err: HttpError)
  {
    function Status(): nat
    {
      if Ok? then 200 else err.status
    }
  }
}
