/**
 * The new-order form (src/pages/orders/CreateOrder.tsx): its schema, the
 * company guard, and the payload, which is the form values plus the
 * company.
 */
module CreateOrder {
  import opened Wrappers
  import opened Domain
  import opened Http

  datatype OrderForm = OrderForm(
    clientName: string,
    clientPhone: string,
    clientAddress: string,
    scheduledDate: string,
    latitude: Option<real>,
    longitude: Option<real>,
    teamId: Option<string>)

  /** `{ ...values, companyId }`. */
  datatype OrderPayload = OrderPayload(values: OrderForm, companyId: string)

  const ClientNameTooShort := "Numele clientului trebuie să aibă cel puțin 3 caractere"
  const ClientPhoneTooShort := "Numărul de telefon trebuie să aibă cel puțin 10 caractere"
  const ClientAddressTooShort := "Adresa trebuie să aibă cel puțin 10 caractere"
  const ScheduledDateMissing := "Data programată este obligatorie"

  /** The schema's messages, one per failing field, in field order; the optional fields never fail. */
  function OrderFormErrors(values: OrderForm): (errors: seq<string>)
    ensures errors == [] <==>
      |values.clientName| >= 3 && |values.clientPhone| >= 10 && |values.clientAddress| >= 10 && values.scheduledDate != ""
    ensures ClientNameTooShort in errors <==> |values.clientName| < 3
    ensures ClientPhoneTooShort in errors <==> |values.clientPhone| < 10
    ensures ClientAddressTooShort in errors <==> |values.clientAddress| < 10
    ensures ScheduledDateMissing in errors <==> values.scheduledDate == ""
    ensures |errors| == (if |values.clientName| < 3 then 1 else 0) + (if |values.clientPhone| < 10 then 1 else 0)
                      + (if |values.clientAddress| < 10 then 1 else 0) + (if values.scheduledDate == "" then 1 else 0)
    ensures |values.clientName| < 3 ==> errors[0] == ClientNameTooShort
    ensures |values.clientPhone| < 10 ==> errors[if |values.clientName| < 3 then 1 else 0] == ClientPhoneTooShort
    ensures |values.clientAddress| < 10 ==>
      errors[(if |values.clientName| < 3 then 1 else 0) + (if |values.clientPhone| < 10 then 1 else 0)] == ClientAddressTooShort
    ensures values.scheduledDate == "" ==> errors[|errors| - 1] == ScheduledDateMissing
  {
    (if |values.clientName| < 3 then [ClientNameTooShort] else [])
    + (if |values.clientPhone| < 10 then [ClientPhoneTooShort] else [])
    + (if |values.clientAddress| < 10 then [ClientAddressTooShort] else [])
    + (if |values.scheduledDate| < 1 then [ScheduledDateMissing] else [])
  }

  /** The optional fields do not affect validity. */
  lemma OptionalFieldsFree(values: OrderForm, latitude: Option<real>, longitude: Option<real>, teamId: Option<string>)
    ensures OrderFormErrors(values.(latitude := latitude, longitude := longitude, teamId := teamId)) == OrderFormErrors(values)
  {
  }

  /** `createOrder`: the payload as the JSON body of a POST to `/orders/create`. */
  function CreateOrderRequest(payload: OrderPayload): (r: JsonRequest<OrderPayload>)
    ensures r.verb == Post && r.path == "/orders/create" && r.query == [] && r.body == payload
  {
    JsonRequest(Post, "/orders/create", [], payload)
  }

  class CreateOrderPage {
    const user: Option<User>
    var loading: bool
    /** The last `navigate` call, if any. */
    var navigatedTo: Option<string>

    constructor (user: Option<User>)
      ensures this.user == user && !loading && navigatedTo == None
    {
      this.user := user;
      loading := false;
      navigatedTo := None;
    }

    /** Submitting up to the awaited `createOrder`. */
    method BeginSubmit(values: OrderForm) returns (sent: Option<JsonRequest<OrderPayload>>)
      modifies this`loading
      ensures OrderFormErrors(values) != [] || CompanyOf(user).None? ==> sent == None && loading == old(loading)
      ensures OrderFormErrors(values) == [] && CompanyOf(user).Some? ==>
        sent == Some(CreateOrderRequest(OrderPayload(values, user.value.companyId))) && loading
    {
      sent := None;
      if OrderFormErrors(values) != [] || CompanyOf(user).None? {
        return;
      }
      loading := true;
      sent := Some(CreateOrderRequest(OrderPayload(values, user.value.companyId)));
    }

    /** The call settled: the spinner stops either way; success leaves for the order list. */
    method Settle(reply: Response<Order>)
      modifies this
      ensures !loading
      ensures navigatedTo == if reply.Success? then Some("/orders") else old(navigatedTo)
    {
      if reply.Success? {
        navigatedTo := Some("/orders");
      }
      loading := false;
    }
  }
}
