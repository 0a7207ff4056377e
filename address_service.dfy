/**
 * The address routes of server.js: POST /api/addresses validates a body,
 * applies the schema's country default and appends one document;
 * GET /api/addresses returns every stored document.
 *
 * The collection is the class AddressStore.  Its behaviour is specified by
 * the pure functions Post and ListReply over a Store value, and the lemmas
 * about Serve follow the store through any sequence of requests.
 */
module AddressService {
  import opened AddressBook

  const AllFieldsRequired: string := "All fields are required"
  const SaveFailedError: string := "Failed to save address"
  const FetchFailedError: string := "Failed to fetch addresses"

  /**
   * The state of the collection.  Document ids come from a counter: the
   * next id handed out is `nextId`, and every stored id is below it.
   */
  datatype Store = Store(records: seq<Address>, nextId: nat)

  /** The check at the head of the POST handler: one of the four required fields is falsy. */
  predicate MissingRequired(body: AddressInput)
  {
    !Truthy(body.addressLine1) || !Truthy(body.city) || !Truthy(body.state) || !Truthy(body.pinCode)
  }

  /** The country stored for a body: the schema default applies only to an absent field. */
  function CountryOf(body: AddressInput): string
  {
    match body.country
    case None => DefaultCountry
    case Some(c) => c
  }

  /** `a` is the document built from `body`: same fields, country defaulted. */
  predicate BuiltFrom(a: Address, body: AddressInput)
  {
    body.addressLine1 == Some(a.addressLine1) && body.city == Some(a.city) &&
    body.state == Some(a.state) && body.pinCode == Some(a.pinCode) &&
    (body.country.None? ==> a.country == DefaultCountry) &&
    (body.country.Some? ==> a.country == body.country.value)
  }

  /** Every stored document is well formed, below the id counter, and ids are distinct. */
  predicate Inv(s: Store)
  {
    (forall i :: 0 <= i < |s.records| ==> WellFormed(s.records[i]) && s.records[i].id < s.nextId) &&
    (forall i, j :: 0 <= i < j < |s.records| ==> s.records[i].id != s.records[j].id)
  }

  /**
   * POST /api/addresses.  `fault` is the error message of a failing `save()`
   * (None when the database accepts the write).
   */
  function Post(s: Store, body: AddressInput, fault: Option<string>): (r: (Store, Response<Address>))
    ensures r.1.Ok? <==> !MissingRequired(body) && fault.None?
    ensures MissingRequired(body) ==> r.1 == Fail(HttpError(400, AllFieldsRequired, None))
    ensures !MissingRequired(body) && fault.Some? ==> r.1 == Fail(HttpError(500, SaveFailedError, fault))
    ensures r.1.Fail? ==> r.0 == s
    ensures r.1.Ok? ==> r.0.records == s.records + [r.1.body] && BuiltFrom(r.1.body, body)
    ensures r.1.Ok? ==> WellFormed(r.1.body)
    ensures Inv(s) && r.1.Ok? ==> forall i :: 0 <= i < |s.records| ==> s.records[i].id != r.1.body.id
    ensures Inv(s) ==> Inv(r.0)
  {
    if MissingRequired(body) then
      (s, Fail(HttpError(400, AllFieldsRequired, None)))
    else if fault.Some? then
      (s, Fail(HttpError(500, SaveFailedError, fault)))
    else
      var a := Address(s.nextId, body.addressLine1.value, body.city.value, body.state.value,
                       CountryOf(body), body.pinCode.value);
      (Store(s.records + [a], s.nextId + 1), Ok(a))
  }

  /** GET /api/addresses.  `fault` is the error message of a failing `find()`. */
  function ListReply(s: Store, fault: Option<string>): (r: Response<seq<Address>>)
    ensures r.Ok? <==> fault.None?
    ensures r.Ok? ==> r.body == s.records
    ensures r.Fail? ==> r.err == HttpError(500, FetchFailedError, fault)
  {
    match fault
    case None => Ok(s.records)
    case Some(_) => Fail(HttpError(500, FetchFailedError, fault))
  }

  /** One request to the address routes, with the database's answer to it. */
  datatype Request =
    | PostAddress(body: AddressInput, fault: Option<string>)
    | GetAddresses(fault: Option<string>)

  function Apply(s: Store, req: Request): Store
  {
    match req
    case PostAddress(body, fault) => Post(s, body, fault).0
    case GetAddresses(_) => s
  }

  /** The store after serving `reqs` in order. */
  function Serve(s: Store, reqs: seq<Request>): Store
    decreases |reqs|
  {
    if reqs == [] then s else Serve(Apply(s, reqs[0]), reqs[1..])
  }

  /** A request that writes a document: a complete POST body and a working database. */
  predicate Accepted(req: Request)
  {
    req.PostAddress? && !MissingRequired(req.body) && req.fault.None?
  }

  function CountAccepted(reqs: seq<Request>): nat
    decreases |reqs|
  {
    if reqs == [] then 0 else (if Accepted(reqs[0]) then 1 else 0) + CountAccepted(reqs[1..])
  }

  /** The invariant of the collection holds after any sequence of requests. */
  lemma {:induction false} ServeKeepsInv(s: Store, reqs: seq<Request>)
    requires Inv(s)
    ensures Inv(Serve(s, reqs))
    decreases |reqs|
  {
    if reqs != [] {
      ServeKeepsInv(Apply(s, reqs[0]), reqs[1..]);
    }
  }

  /**
   * Documents are never changed or removed: what was stored stays a prefix,
   * and the collection grows by exactly one per accepted POST.
   */
  lemma {:induction false} ServeOnlyAppends(s: Store, reqs: seq<Request>)
    ensures s.records <= Serve(s, reqs).records
    ensures |Serve(s, reqs).records| == |s.records| + CountAccepted(reqs)
    decreases |reqs|
  {
    if reqs != [] {
      var t := Apply(s, reqs[0]);
      ServeOnlyAppends(t, reqs[1..]);
      assert s.records <= t.records;
    }
  }

  /** With no accepted POST in between, the store and hence every listing are unchanged. */
  lemma {:induction false} ListStableWithoutCreate(s: Store, reqs: seq<Request>)
    requires CountAccepted(reqs) == 0
    ensures Serve(s, reqs) == s
    ensures ListReply(Serve(s, reqs), None) == ListReply(s, None)
    decreases |reqs|
  {
    if reqs != [] {
      ListStableWithoutCreate(Apply(s, reqs[0]), reqs[1..]);
    }
  }

  /** The `addresses` collection of the database, updated in place by `save()`. */
  class AddressStore {
    var records: seq<Address>
    var nextId: nat

    function Snapshot(): Store
      reads this
    {
      Store(records, nextId)
    }

    ghost predicate Valid()
      reads this
    {
      Inv(Snapshot())
    }

    constructor ()
      ensures Valid() && records == [] && nextId == 0
    {
      records := [];
      nextId := 0;
    }

    /** The POST /api/addresses handler. */
    method Create(body: AddressInput, fault: Option<string>) returns (resp: Response<Address>)
      requires Valid()
      modifies this
      ensures Valid()
      ensures (Snapshot(), resp) == Post(old(Snapshot()), body, fault)
      ensures resp.Fail? ==> records == old(records)
      ensures resp.Ok? ==> records == old(records) + [resp.body]
    {
      if !Truthy(body.addressLine1) || !Truthy(body.city) || !Truthy(body.state) || !Truthy(body.pinCode) {
        return Fail(HttpError(400, AllFieldsRequired, None));
      }
      var country := if body.country.None? then DefaultCountry else body.country.value;
      var a := Address(nextId, body.addressLine1.value, body.city.value, body.state.value,
                       country, body.pinCode.value);
      if fault.Some? {
        return Fail(HttpError(500, SaveFailedError, fault));
      }
      records := records + [a];
      nextId := nextId + 1;
      resp := Ok(a);
    }

    /** The GET /api/addresses handler; it changes nothing. */
    method List(fault: Option<string>) returns (resp: Response<seq<Address>>)
      ensures resp.Ok? <==> fault.None?
      ensures resp.Ok? ==> resp.body == records
      ensures resp.Fail? ==> resp.err == HttpError(500, FetchFailedError, fault)
    {
      if fault.None? {
        resp := Ok(records);
      } else {
        resp := Fail(HttpError(500, FetchFailedError, fault));
      }
    }
  }
}
