/**
 * The client talking to the service.  axios resolves only on a 2xx reply and
 * rejects every other status, so an error reply of the service reaches the
 * `catch` branch of the handler that sent the request.
 */
module EndToEnd {
  import opened AddressBook
  import opened AddressService
  import opened PinDirectory
  import opened AddressForm

  /** The JSON body `axios.post` sends: every field of `formData`, present. */
  function PostedBody(f: FormData): AddressInput
  {
    AddressInput(Some(f.addressLine1), Some(f.city), Some(f.state), Some(f.country), Some(f.pinCode))
  }

  function AxiosLookup(r: Response<PinJson>): LookupOutcome
  {
    match r
    case Ok(data) => Answered(data)
    case Fail(_) => LookupFailed
  }

  function AxiosSave(r: Response<Address>): SubmitOutcome
  {
    match r
    case Ok(_) => Saved
    case Fail(_) => SaveFailed
  }

  function AxiosLoad(r: Response<seq<Address>>): LoadOutcome
  {
    match r
    case Ok(list) => Loaded(list)
    case Fail(_) => LoadFailed
  }

  /** The lookup outcome the service produces for `pin`. */
  function ServedLookup(pin: string): LookupOutcome
  {
    AxiosLookup(ReplyBody(LookupPin(pin)))
  }

  /**
   * The client asks only about six-character codes, and on those the handler
   * as written gives it the same outcome, so what follows holds of it too.
   */
  lemma AsWrittenServesClientAlike(pin: string)
    requires |pin| == 6
    ensures AxiosLookup(LookupPinAsWritten(pin)) == ServedLookup(pin)
  {
  }

  /**
   * A six-character code the table does not hold is answered with 404, which
   * axios rejects: the banner reads "Failed to fetch city/state", and city and
   * state keep their earlier values.
   */
  lemma UnknownPinShowsFetchFailure(s: ClientState, pin: string)
    requires |pin| == 6 && pin !in PinTable
    ensures AfterPinChange(s, pin, ServedLookup(pin)).error == LookupFailedMessage
    ensures AfterPinChange(s, pin, ServedLookup(pin)).form.city == s.form.city
    ensures AfterPinChange(s, pin, ServedLookup(pin)).form.state == s.form.state
  {
  }

  /** A seeded code fills in the table's city and state and clears the banner. */
  lemma KnownPinFillsForm(s: ClientState, pin: string)
    requires pin in PinTable
    ensures AfterPinChange(s, pin, ServedLookup(pin)).form.city == PinTable[pin].city
    ensures AfterPinChange(s, pin, ServedLookup(pin)).form.state == PinTable[pin].state
    ensures AfterPinChange(s, pin, ServedLookup(pin)).error == ""
  {
  }

  /** Every PIN lookup in the event is answered by this service. */
  predicate ServedByDirectory(e: Event)
  {
    e.PinChange? ==> e.lookup == ServedLookup(e.pin)
  }

  /**
   * Against this service the "Invalid PIN code" banner never appears: the
   * client asks only about six-character codes, and for those the service
   * answers either with a complete city/state pair or with a rejected 404.
   */
  lemma {:induction false} InvalidPinNeverShown(s: ClientState, events: seq<Event>)
    requires s.error != InvalidPinMessage
    requires forall i :: 0 <= i < |events| ==> ServedByDirectory(events[i])
    ensures Run(s, events).error != InvalidPinMessage
    decreases |events|
  {
    if events != [] {
      assert ServedByDirectory(events[0]);
      InvalidPinNeverShown(Step(s, events[0]), events[1..]);
    }
  }

  /** Every lookup the client makes in the event is answered by the handler as written. */
  predicate ServedAsWritten(e: Event)
  {
    e.PinChange? && |e.pin| == 6 ==> e.lookup == AxiosLookup(LookupPinAsWritten(e.pin))
  }

  /**
   * The same holds against the handler as written, whose inherited-name
   * replies have no city or state: none of those names has six characters.
   */
  lemma {:induction false} InvalidPinNeverShownAsWritten(s: ClientState, events: seq<Event>)
    requires s.error != InvalidPinMessage
    requires forall i :: 0 <= i < |events| ==> ServedAsWritten(events[i])
    ensures Run(s, events).error != InvalidPinMessage
    decreases |events|
  {
    if events != [] {
      assert ServedAsWritten(events[0]);
      if events[0].PinChange? && |events[0].pin| == 6 {
        AsWrittenServesClientAlike(events[0].pin);
      }
      InvalidPinNeverShownAsWritten(Step(s, events[0]), events[1..]);
    }
  }

  /**
   * Submitting a form with an empty required field: the service answers 400
   * and writes nothing, and the client keeps every field and shows
   * "Failed to save address".
   */
  lemma IncompleteSubmitKeepsForm(c: ClientState, st: Store, fault: Option<string>)
    requires c.form.addressLine1 == "" || c.form.city == "" || c.form.state == "" || c.form.pinCode == ""
    ensures Post(st, PostedBody(c.form), fault).0 == st
    ensures Post(st, PostedBody(c.form), fault).1.Status() == 400
    ensures AfterSubmit(c, AxiosSave(Post(st, PostedBody(c.form), fault).1)).form == c.form
    ensures AfterSubmit(c, AxiosSave(Post(st, PostedBody(c.form), fault).1)).error == SaveFailedMessage
  {
  }

  /**
   * Submitting a complete form to a working service, then the refresh that
   * follows: the client shows exactly the stored documents, the last of them
   * built from the form, and the form is back to its initial values.
   */
  lemma CompleteSubmitThenRefresh(c: ClientState, st: Store)
    requires c.form.addressLine1 != "" && c.form.city != "" && c.form.state != "" && c.form.pinCode != ""
    ensures var (st', resp) := Post(st, PostedBody(c.form), None);
      var c' := AfterLoad(AfterSubmit(c, AxiosSave(resp)), AxiosLoad(ListReply(st', None)));
      && c'.addresses == st.records + [resp.body]
      && resp.body.addressLine1 == c.form.addressLine1 && resp.body.city == c.form.city
      && resp.body.state == c.form.state && resp.body.country == c.form.country
      && resp.body.pinCode == c.form.pinCode
      && c'.form == InitialForm && c'.error == ""
  {
  }

  /** Creating an address without a country, then listing: it is stored with country "India". */
  method CreateThenList() returns (created: Response<Address>, listed: Response<seq<Address>>)
    ensures created.Ok? && created.body.country == "India" && created.body.city == "Chennai"
    ensures listed == Ok([created.body])
  {
    var store := new AddressStore();
    created := store.Create(AddressInput(Some("12 Main St"), Some("Chennai"), Some("Tamil Nadu"), None, Some("600001")), None);
    assert store.records == [created.body];
    listed := store.List(None);
  }

  /** An empty address line is refused with 400 and the list keeps its length. */
  method RejectedCreateKeepsList() returns (rejected: Response<Address>, before: nat, after: nat)
    ensures rejected == Fail(HttpError(400, "All fields are required", None))
    ensures before == after == 1
  {
    var store := new AddressStore();
    var first := store.Create(AddressInput(Some("12 Main St"), Some("Chennai"), Some("Tamil Nadu"), None, Some("600001")), None);
    var listed := store.List(None);
    before := |listed.body|;
    rejected := store.Create(AddressInput(Some(""), Some("X"), Some("Y"), None, Some("110001")), None);
    listed := store.List(None);
    after := |listed.body|;
  }

  /**
   * A whole session: mount, type a seeded PIN code, type the address line,
   * submit, refresh.  The table shows the new address and the form is empty.
   */
  method Session() returns (shown: seq<Address>, banner: string, form: FormData)
    ensures |shown| == 1
    ensures shown[0] == Address(0, "12 Main St", "Chennai", "Tamil Nadu", "India", "600001")
    ensures banner == "" && form == InitialForm
  {
    var store := new AddressStore();
    var app := new App();
    var listed := store.List(None);
    app.FetchAddresses(AxiosLoad(listed));
    var lookedUp := app.HandlePinCodeChange("600001", ServedLookup("600001"));
    app.EditAddressLine1("12 Main St");
    var resp := store.Create(PostedBody(app.formData), None);
    var posted, refresh := app.HandleSubmit(AxiosSave(resp));
    if refresh {
      listed := store.List(None);
      app.FetchAddresses(AxiosLoad(listed));
    }
    shown, banner, form := app.addresses, app.error, app.formData;
  }
}
