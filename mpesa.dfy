// The M-Pesa routes (backend/routes/mpesaRoutes.js): the access-token
// middleware, the STK push request that goes to the gateway, and the
// gateway's payment-result callback. The OAuth request, the gateway call,
// the clock and the Base64 encoding are outside the model: their results
// are parameters.

module Mpesa {
  import opened Wrappers
  import Orders

  // ----- POST /stk-push -----

  /** The body the client sends: `{ amount, phone, orderId }`. */
  datatype StkPushRequest = StkPushRequest(amount: int, phone: string, orderId: string)

  /** The environment variables the handler reads. */
  datatype MpesaConfig = MpesaConfig(shortCode: string, passkey: string, callbackUrl: string)

  /** The JSON body posted to the gateway's process-request endpoint. */
  datatype StkPushBody = StkPushBody(
    businessShortCode: string,
    password: string,
    timestamp: string,
    transactionType: string,
    amount: int,
    partyA: string,
    partyB: string,
    phoneNumber: string,
    callBackUrl: string,
    accountReference: string,
    transactionDesc: string)

  const AccountReferencePrefix: string := "OlmarithiOrder-"
  const TransactionType: string := "CustomerPayBillOnline"
  const TransactionDesc: string := "Olmarithi Online Payment"
  const TokenFailureMessage: string := "Payment initiation failed. Please try again."
  const StkFailureMessage: string := "Failed to prompt M-Pesa PIN. Check phone number format."

  /** The account reference that carries the client's order id to the gateway. */
  function AccountReference(orderId: string): (r: string)
    ensures |r| == |AccountReferencePrefix| + |orderId|
    ensures r[..|AccountReferencePrefix|] == AccountReferencePrefix
    ensures r[|AccountReferencePrefix|..] == orderId
  {
    AccountReferencePrefix + orderId
  }

  /** Distinct order ids give distinct account references. */
  lemma AccountReferenceInjective(a: string, b: string)
    ensures AccountReference(a) == AccountReference(b) ==> a == b
  {
    if AccountReference(a) == AccountReference(b) {
      assert a == AccountReference(a)[|AccountReferencePrefix|..];
    }
  }

  /** The text the handler Base64-encodes into the password: short code, passkey, timestamp. */
  function PasswordSource(cfg: MpesaConfig, timestamp: string): (r: string)
    ensures |r| == |cfg.shortCode| + |cfg.passkey| + |timestamp|
    ensures r[..|cfg.shortCode|] == cfg.shortCode && r[|r| - |timestamp|..] == timestamp
    ensures r[|cfg.shortCode|..|r| - |timestamp|] == cfg.passkey
  {
    cfg.shortCode + cfg.passkey + timestamp
  }

  /** The request body built from the client's amount, phone and order id; `password`
      is the Base64 encoding of PasswordSource(cfg, timestamp). */
  function BuildStkPushBody(cfg: MpesaConfig, req: StkPushRequest, timestamp: string, password: string): (b: StkPushBody)
    ensures b.amount == req.amount
    ensures b.partyA == req.phone && b.phoneNumber == req.phone
    ensures b.partyB == b.businessShortCode == cfg.shortCode
    ensures b.transactionType == "CustomerPayBillOnline"
    ensures b.accountReference == "OlmarithiOrder-" + req.orderId
    ensures b.transactionDesc == "Olmarithi Online Payment"
    ensures b.timestamp == timestamp && b.password == password && b.callBackUrl == cfg.callbackUrl
  {
    StkPushBody(cfg.shortCode, password, timestamp, TransactionType, req.amount, req.phone,
                cfg.shortCode, req.phone, cfg.callbackUrl, AccountReference(req.orderId), TransactionDesc)
  }

  /** The gateway's immediate acknowledgement (a request-accepted code, not a payment result).
      A field the body lacks is the empty string; `errorMessage` is the field the gateway's
      error bodies carry. */
  datatype StkAck = StkAck(merchantRequestId: string, checkoutRequestId: string,
                           responseCode: string, responseDescription: string, customerMessage: string,
                           errorMessage: string)

  /** What the handler answers: the gateway's body unchanged, or a 500 with a message. */
  datatype StkResponse = Forwarded(ack: StkAck) | ServerError(message: string)

  /** What the handler sends to the gateway: the body and its bearer token. */
  datatype GatewayCall = GatewayCall(body: StkPushBody, bearerToken: string)

  /** The Express request object the middleware and the handler share. */
  class PaymentRequest {
    const body: StkPushRequest
    var accessToken: Option<string>

    constructor (body: StkPushRequest)
      ensures this.body == body && accessToken == None
    {
      this.body := body;
      accessToken := None;
    }

    /** generateAccessToken: on success it stores the token on the request and passes
        control on (`next()`); on failure it answers 500 itself. `oauth` is the
        OAuth endpoint's `access_token`, or None when that request failed. A reply that
        succeeds without an `access_token` is not told apart: it also becomes None and
        so a failure here, where the route would store `undefined` and still pass on. */
    method GenerateAccessToken(oauth: Option<string>) returns (next: bool, failure: Option<StkResponse>)
      modifies this`accessToken
      ensures next <==> oauth.Some?
      ensures next ==> accessToken == oauth && failure == None
      ensures !next ==> accessToken == old(accessToken) && failure == Some(ServerError(TokenFailureMessage))
    {
      if oauth.None? {
        return false, Some(ServerError(TokenFailureMessage));
      }
      accessToken := oauth;
      next, failure := true, None;
    }
  }

  /** POST /stk-push behind its middleware. `gateway` is the gateway's answer to the
      call, None when the call failed. Returns the response and the call made, if any. */
  method InitiateStkPush(req: PaymentRequest, cfg: MpesaConfig, timestamp: string, password: string,
                         oauth: Option<string>, gateway: Option<StkAck>)
    returns (resp: StkResponse, call: Option<GatewayCall>)
    modifies req`accessToken
    ensures req.accessToken == (if oauth.Some? then oauth else old(req.accessToken))
    ensures oauth.None? ==> resp == ServerError(TokenFailureMessage) && call == None
    ensures oauth.Some? ==>
      && call == Some(GatewayCall(BuildStkPushBody(cfg, req.body, timestamp, password), oauth.value))
      && resp == (if gateway.Some? then Forwarded(gateway.value) else ServerError(StkFailureMessage))
  {
    var next, failure := req.GenerateAccessToken(oauth);
    if !next {
      return failure.value, None;
    }
    var stkBody := BuildStkPushBody(cfg, req.body, timestamp, password);
    call := Some(GatewayCall(stkBody, req.accessToken.value));
    if gateway.None? {
      resp := ServerError(StkFailureMessage);
    } else {
      resp := Forwarded(gateway.value);
    }
  }

  // ----- POST /callback -----

  /** JSON values of the callback metadata (Amount and PhoneNumber are numbers). */
  datatype JsonValue = JNum(n: int) | JStr(s: string) | JAbsent

  datatype MetadataItem = MetadataItem(name: string, value: JsonValue)

  /** `Body.stkCallback` of the gateway's envelope. */
  datatype StkCallback = StkCallback(
    merchantRequestId: string,
    checkoutRequestId: string,
    resultCode: JsonValue,
    resultDesc: string,
    metadata: Option<seq<MetadataItem>>)

  datatype PaymentDetails = PaymentDetails(receipt: JsonValue, amount: JsonValue, phone: JsonValue)

  /** A 200 acknowledgement (with the details read on success), or a handler that
      threw before answering. */
  datatype CallbackOutcome =
    | Acknowledged(status: int, message: string, details: Option<PaymentDetails>)
    | Threw

  const CallbackSuccessMessage: string := "Callback received and processed successfully."
  const CallbackFailureMessage: string := "Callback received, transaction failed."

  /** `items.find(item => item.Name === name)`: the first item with that name. */
  function FindItem(items: seq<MetadataItem>, name: string): (r: Option<MetadataItem>)
    ensures r.Some? <==> exists k :: 0 <= k < |items| && items[k].name == name
    ensures r.Some? ==> exists k :: 0 <= k < |items| && items[k] == r.value && items[k].name == name
                                    && forall j :: 0 <= j < k ==> items[j].name != name
  {
    if items == [] then None
    else if items[0].name == name then Some(items[0])
    else
      var r := FindItem(items[1..], name);
      assert forall k :: 0 < k < |items| ==> items[k] == items[1..][k - 1];
      r
  }

  /** The three look-ups of the success branch; None when one of them finds nothing
      (reading `.Value` of `undefined` throws). */
  function ReadDetails(items: seq<MetadataItem>): (r: Option<PaymentDetails>)
    ensures r.Some? <==> FindItem(items, "MpesaReceiptNumber").Some? && FindItem(items, "Amount").Some?
                         && FindItem(items, "PhoneNumber").Some?
    ensures r.Some? ==> r.value == PaymentDetails(FindItem(items, "MpesaReceiptNumber").value.value,
                                                  FindItem(items, "Amount").value.value,
                                                  FindItem(items, "PhoneNumber").value.value)
  {
    var receipt := FindItem(items, "MpesaReceiptNumber");
    var amount := FindItem(items, "Amount");
    var phone := FindItem(items, "PhoneNumber");
    if receipt.None? || amount.None? || phone.None? then None
    else Some(PaymentDetails(receipt.value.value, amount.value.value, phone.value.value))
  }

  /** The callback handler. `envelope` is `data.Body.stkCallback`, None when the body
      lacks it. Only the number 0 (strict equality) is success. */
  function HandleCallback(envelope: Option<StkCallback>): (r: CallbackOutcome)
    ensures envelope.None? ==> r == Threw
    ensures envelope.Some? && envelope.value.resultCode != JNum(0) ==>
              r == Acknowledged(200, CallbackFailureMessage, None)
    ensures envelope.Some? && envelope.value.resultCode == JNum(0) ==>
              if envelope.value.metadata.Some? && ReadDetails(envelope.value.metadata.value).Some?
              then r == Acknowledged(200, CallbackSuccessMessage, ReadDetails(envelope.value.metadata.value))
              else r == Threw
    ensures r.Acknowledged? ==> r.status == 200
  {
    match envelope
    case None => Threw
    case Some(cb) =>
      if cb.resultCode == JNum(0) then
        match cb.metadata
        case None => Threw
        case Some(items) =>
          var details := ReadDetails(items);
          if details.None? then Threw
          else Acknowledged(200, CallbackSuccessMessage, details)
      else
        Acknowledged(200, CallbackFailureMessage, None)
  }

  /** On success the receipt is the value of the first item named MpesaReceiptNumber,
      whatever else the metadata holds. */
  lemma {:induction false} ReceiptIsFirstMatch(cb: StkCallback, k: nat)
    requires cb.resultCode == JNum(0) && cb.metadata.Some?
    requires k < |cb.metadata.value| && cb.metadata.value[k].name == "MpesaReceiptNumber"
    requires forall j :: 0 <= j < k ==> cb.metadata.value[j].name != "MpesaReceiptNumber"
    requires FindItem(cb.metadata.value, "Amount").Some? && FindItem(cb.metadata.value, "PhoneNumber").Some?
    ensures HandleCallback(Some(cb)).Acknowledged?
    ensures HandleCallback(Some(cb)).details.value.receipt == cb.metadata.value[k].value
  {
    var items := cb.metadata.value;
    var r := FindItem(items, "MpesaReceiptNumber");
    var m :| 0 <= m < |items| && items[m] == r.value && items[m].name == "MpesaReceiptNumber"
             && forall j :: 0 <= j < m ==> items[j].name != "MpesaReceiptNumber";
    assert !(m < k) && !(k < m);
  }

  /** The route with the order collection in reach: it answers, and no order changes
      (the update steps exist only as comments in the handler). */
  method ReceiveCallback(store: Orders.OrderStore, envelope: Option<StkCallback>) returns (r: CallbackOutcome)
    ensures r == HandleCallback(envelope)
    ensures store.orders == old(store.orders) && store.nextId == old(store.nextId)
  {
    r := HandleCallback(envelope);
  }
}
