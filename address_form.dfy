/**
 * The App component of App.js: three state cells (`addresses`, `formData`,
 * `error`) that its event handlers overwrite.  The outcome of each HTTP call a
 * handler awaits is an input of the handler.
 *
 * The class App holds the cells; the pure functions After* and Step specify
 * each handler on a ClientState value, and the lemmas about Run follow the
 * component through any sequence of events.
 */
module AddressForm {
  import opened AddressBook

  const LoadFailedMessage: string := "❌ Failed to load addresses."
  const InvalidPinMessage: string := "❌ Invalid PIN code."
  const LookupFailedMessage: string := "❌ Failed to fetch city/state. Please check the PIN code."
  const SaveFailedMessage: string := "❌ Failed to save address."

  /** The `formData` cell. */
  datatype FormData = FormData(
    addressLine1: string,
    city: string,
    state: string,
    country: string,
    pinCode: string)

  const InitialForm: FormData := FormData("", "", "", "India", "")

  /** The three state cells together. */
  datatype ClientState = ClientState(addresses: seq<Address>, form: FormData, error: string)

  const Initial: ClientState := ClientState([], InitialForm, "")

  /** How `axios.get` of the address list ended. */
  datatype LoadOutcome = Loaded(list: seq<Address>) | LoadFailed

  /** How `axios.get` of a PIN code ended: a 2xx reply with its body, or a rejection. */
  datatype LookupOutcome = Answered(data: PinJson) | LookupFailed

  /** How `axios.post` of the form ended. */
  datatype SubmitOutcome = Saved | SaveFailed

  /** The three text fields edited by inline handlers. */
  datatype Field = AddressLine1 | City | State

  function FieldValue(f: FormData, field: Field): string
  {
    match field
    case AddressLine1 => f.addressLine1
    case City => f.city
    case State => f.state
  }

  /** `fetchAddresses` once its request has ended. */
  function AfterLoad(s: ClientState, outcome: LoadOutcome): (t: ClientState)
    ensures t.form == s.form
    ensures outcome.Loaded? ==> t.addresses == outcome.list && t.error == s.error
    ensures outcome.LoadFailed? ==> t.addresses == s.addresses && t.error == LoadFailedMessage
  {
    match outcome
    case Loaded(list) => s.(addresses := list)
    case LoadFailed => s.(error := LoadFailedMessage)
  }

  /** An inline `onChange` handler of one text field. */
  function AfterEdit(s: ClientState, field: Field, value: string): (t: ClientState)
    ensures FieldValue(t.form, field) == value
    ensures forall g: Field :: g != field ==> FieldValue(t.form, g) == FieldValue(s.form, g)
    ensures t.form.pinCode == s.form.pinCode && t.form.country == s.form.country
    ensures t.addresses == s.addresses && t.error == s.error
  {
    match field
    case AddressLine1 => s.(form := s.form.(addressLine1 := value))
    case City => s.(form := s.form.(city := value))
    case State => s.(form := s.form.(state := value))
  }

  /** A lookup that fills in city and state: both fields truthy. */
  predicate Resolved(outcome: LookupOutcome)
  {
    outcome.Answered? && Truthy(outcome.data.city) && Truthy(outcome.data.state)
  }

  /**
   * `handlePinCodeChange` once its lookup (if any) has ended.  A lookup is made
   * only for a value of exactly six characters; otherwise `lookup` is ignored.
   */
  function AfterPinChange(s: ClientState, pin: string, lookup: LookupOutcome): (t: ClientState)
    ensures t.form.pinCode == pin
    ensures t.form.addressLine1 == s.form.addressLine1 && t.form.country == s.form.country
    ensures t.addresses == s.addresses
    ensures |pin| == 6 && Resolved(lookup) ==>
      Some(t.form.city) == lookup.data.city && Some(t.form.state) == lookup.data.state && t.error == ""
    ensures !(|pin| == 6 && Resolved(lookup)) ==> t.form.city == s.form.city && t.form.state == s.form.state
    ensures |pin| != 6 ==> t.error == s.error
    ensures |pin| == 6 && lookup.Answered? && !Resolved(lookup) ==> t.error == InvalidPinMessage
    ensures |pin| == 6 && lookup.LookupFailed? ==> t.error == LookupFailedMessage
  {
    var edited := s.(form := s.form.(pinCode := pin));
    if |pin| != 6 then edited
    else match lookup
      case Answered(data) =>
        if Truthy(data.city) && Truthy(data.state) then
          edited.(form := edited.form.(city := data.city.value, state := data.state.value), error := "")
        else
          edited.(error := InvalidPinMessage)
      case LookupFailed => edited.(error := LookupFailedMessage)
  }

  /** `handleSubmit` once the POST has ended (the list refresh it starts is a later AfterLoad). */
  function AfterSubmit(s: ClientState, outcome: SubmitOutcome): (t: ClientState)
    ensures t.addresses == s.addresses
    ensures outcome.Saved? ==> t.form == InitialForm && t.error == ""
    ensures outcome.SaveFailed? ==> t.form == s.form && t.error == SaveFailedMessage
  {
    match outcome
    case Saved => s.(form := InitialForm, error := "")
    case SaveFailed => s.(error := SaveFailedMessage)
  }

  /** One handler run, with the outcome of the request it awaited. */
  datatype Event =
    | Edit(field: Field, value: string)
    | PinChange(pin: string, lookup: LookupOutcome)
    | Submit(post: SubmitOutcome)
    | Load(fetch: LoadOutcome)

  function Step(s: ClientState, e: Event): ClientState
  {
    match e
    case Edit(field, value) => AfterEdit(s, field, value)
    case PinChange(pin, lookup) => AfterPinChange(s, pin, lookup)
    case Submit(outcome) => AfterSubmit(s, outcome)
    case Load(outcome) => AfterLoad(s, outcome)
  }

  /** The state after the handlers of `events` have run one after another. */
  function Run(s: ClientState, events: seq<Event>): ClientState
    decreases |events|
  {
    if events == [] then s else Run(Step(s, events[0]), events[1..])
  }

  /** The banner shows nothing or one of the component's four messages. */
  predicate KnownError(error: string)
  {
    error == "" || error == LoadFailedMessage || error == InvalidPinMessage ||
    error == LookupFailedMessage || error == SaveFailedMessage
  }

  /** No handler writes any country but "India": the read-only field keeps its initial value. */
  lemma {:induction false} CountryStaysIndia(s: ClientState, events: seq<Event>)
    requires s.form.country == "India"
    ensures Run(s, events).form.country == "India"
    decreases |events|
  {
    if events != [] {
      CountryStaysIndia(Step(s, events[0]), events[1..]);
    }
  }

  /** Whatever happens, the banner holds one of the component's own messages. */
  lemma {:induction false} ErrorAlwaysKnown(s: ClientState, events: seq<Event>)
    requires KnownError(s.error)
    ensures KnownError(Run(s, events).error)
    decreases |events|
  {
    if events != [] {
      ErrorAlwaysKnown(Step(s, events[0]), events[1..]);
    }
  }

  /** The component: its state cells and one method per handler. */
  class App {
    var addresses: seq<Address>
    var formData: FormData
    var error: string

    function Cells(): ClientState
      reads this
    {
      ClientState(addresses, formData, error)
    }

    /** The `useState` initial values. */
    constructor ()
      ensures Cells() == Initial
      ensures formData.country == "India" && formData.pinCode == "" && error == "" && addresses == []
    {
      addresses := [];
      formData := FormData("", "", "", "India", "");
      error := "";
    }

    /** `fetchAddresses`, run on mount and after each saved address. */
    method FetchAddresses(outcome: LoadOutcome)
      modifies this
      ensures Cells() == AfterLoad(old(Cells()), outcome)
    {
      match outcome {
        case Loaded(list) =>
          addresses := list;
        case LoadFailed =>
          error := LoadFailedMessage;
      }
    }

    /** `handlePinCodeChange`; `lookedUp` says whether the PIN endpoint was called. */
    method HandlePinCodeChange(pin: string, lookup: LookupOutcome) returns (lookedUp: bool)
      modifies this
      ensures lookedUp <==> |pin| == 6
      ensures Cells() == AfterPinChange(old(Cells()), pin, lookup)
    {
      formData := formData.(pinCode := pin);
      lookedUp := |pin| == 6;
      if lookedUp {
        match lookup {
          case Answered(data) =>
            if Truthy(data.city) && Truthy(data.state) {
              formData := formData.(city := data.city.value, state := data.state.value);
              error := "";
            } else {
              error := InvalidPinMessage;
            }
          case LookupFailed =>
            error := LookupFailedMessage;
        }
      }
    }

    /**
     * `handleSubmit`: `posted` is the body sent to the service; `refresh` says
     * that a `fetchAddresses` follows.
     */
    method HandleSubmit(outcome: SubmitOutcome) returns (posted: FormData, refresh: bool)
      modifies this
      ensures posted == old(formData)
      ensures refresh <==> outcome.Saved?
      ensures Cells() == AfterSubmit(old(Cells()), outcome)
    {
      posted := formData;
      refresh := false;
      match outcome {
        case Saved =>
          formData := FormData("", "", "", "India", "");
          refresh := true;
          error := "";
        case SaveFailed =>
          error := SaveFailedMessage;
      }
    }

    method EditAddressLine1(value: string)
      modifies this
      ensures Cells() == AfterEdit(old(Cells()), AddressLine1, value)
    {
      formData := formData.(addressLine1 := value);
    }

    method EditCity(value: string)
      modifies this
      ensures Cells() == AfterEdit(old(Cells()), City, value)
    {
      formData := formData.(city := value);
    }

    method EditState(value: string)
      modifies this
      ensures Cells() == AfterEdit(old(Cells()), State, value)
    {
      formData := formData.(state := value);
    }
  }
}
