/**
 * The payment gateway manager: which of Stripe, PayPal and Razorpay serves a payment, given the
 * payer's country and payment method; how a gateway's answer becomes a payment response; how each
 * gateway's own status words map to the payment statuses; and the payment methods offered per
 * country. The gateways' SDK calls are inputs: what they return, or that they raised.
 */
module PaymentGateways {
  import opened Wrappers
  import opened Text

  datatype Gateway = Stripe | PayPal | Razorpay

  datatype PaymentMethod = CreditCard | DebitCard | PayPalAccount | Upi | NetBanking | Wallet

  datatype PaymentStatus = Pending | Success | Failed | Cancelled | Refunded

  // ---------------------------------------------------------------------------------------
  // Gateway selection

  /** The gateway preferences of the countries the manager knows, by upper-case country code. */
  const CountryGateways: map<string, seq<Gateway>> := map[
    "IN" := [Razorpay, Stripe],
    "US" := [Stripe, PayPal],
    "CA" := [Stripe, PayPal],
    "GB" := [Stripe, PayPal],
    "AU" := [Stripe, PayPal],
    "DE" := [Stripe, PayPal],
    "FR" := [Stripe, PayPal]]

  /** The preference order for every other country. */
  const DefaultGateways: seq<Gateway> := [Stripe, PayPal, Razorpay]

  /** `self.country_gateways.get(country.upper(), self.default_gateways)` */
  function Preferences(country: string): (prefs: seq<Gateway>)
    ensures |prefs| > 0
    ensures Upper(country) !in CountryGateways ==> prefs == DefaultGateways
  {
    var code := Upper(country);
    if code in CountryGateways then CountryGateways[code] else DefaultGateways
  }

  predicate IsCard(m: PaymentMethod) {
    m == CreditCard || m == DebitCard
  }

  /**
   * `get_preferred_gateway`: Razorpay for UPI and net banking in India, PayPal for PayPal
   * accounts, Stripe for cards, and otherwise the country's first preference. The preference
   * lists are never empty, so the indexing cannot fail and the fallback to Stripe in the
   * exception handler is never taken.
   */
  function PreferredGateway(country: string, m: PaymentMethod): (g: Gateway)
    ensures m == PayPalAccount ==> g == PayPal
    ensures IsCard(m) ==> g == Stripe
    ensures Upper(country) == "IN" && (m == Upi || m == NetBanking) ==> g == Razorpay
    ensures Upper(country) != "IN" && (m == Upi || m == NetBanking) ==> g == Preferences(country)[0]
    ensures m == Wallet ==> g == Preferences(country)[0]
  {
    var prefs := Preferences(country);
    if Upper(country) == "IN" && (m == Upi || m == NetBanking) then Razorpay
    else if m == PayPalAccount then PayPal
    else if IsCard(m) then Stripe
    else prefs[0]
  }

  /**
   * Which gateway is chosen, stated without the rule order: Razorpay exactly for a payer in
   * India paying by UPI, net banking or wallet; PayPal exactly for a PayPal account; Stripe in
   * every other case, cards included, in India too.
   */
  lemma PreferredGatewayChoice(country: string, m: PaymentMethod)
    ensures PreferredGateway(country, m) == Razorpay <==> Upper(country) == "IN" && (m == Upi || m == NetBanking || m == Wallet)
    ensures PreferredGateway(country, m) == PayPal <==> m == PayPalAccount
    ensures PreferredGateway(country, m) == Stripe <==>
      IsCard(m) || (Upper(country) != "IN" && (m == Upi || m == NetBanking || m == Wallet))
  {
    var code := Upper(country);
    if code in CountryGateways && code != "IN" {
      FirstPreferenceOutsideIndia(code);
    }
  }

  lemma FirstPreferenceOutsideIndia(code: string)
    requires code in CountryGateways && code != "IN"
    ensures CountryGateways[code][0] == Stripe
  {
  }

  /** The examples of the design: a wallet in India goes to Razorpay, UPI in the USA to Stripe. */
  lemma PreferredGatewayExamples()
    ensures PreferredGateway("IN", Wallet) == Razorpay
    ensures PreferredGateway("in", Upi) == Razorpay
    ensures PreferredGateway("US", Upi) == Stripe
    ensures PreferredGateway("IN", CreditCard) == Stripe
  {
    assert Upper("IN") == "IN";
    assert Upper("in") == "IN";
    assert Upper("US") == "US";
  }

  // ---------------------------------------------------------------------------------------
  // Creating a payment

  /** `PaymentResponse` */
  datatype PaymentResponse = PaymentResponse(
    paymentId: string, status: PaymentStatus, gateway: Gateway, amount: real, currency: string,
    paymentUrl: Option<string>, transactionId: Option<string>, errorMessage: Option<string>)

  /**
   * What a gateway's SDK did with a creation request: created the payment (its id and, for
   * PayPal, the approval link), or raised (PayPal's `create()` returning false raises too).
   */
  datatype CreateOutcome = Created(id: string, approvalUrl: string) | CreateRaised(message: string)

  /** `os.getenv('FRONTEND_URL', 'http://localhost:3000')` */
  function FrontendUrl(env: Option<string>): (url: string)
    ensures env.None? ==> url == "http://localhost:3000"
  {
    env.GetOr("http://localhost:3000")
  }

  /**
   * The `create_payment` of gateway `g`: a pending payment on success, with Stripe's intent id
   * as transaction id, PayPal's approval link, or the front-end's Razorpay page as payment URL;
   * a failed payment with an empty id and the error message when the SDK raised.
   */
  function GatewayCreate(g: Gateway, amount: real, currency: string, outcome: CreateOutcome, frontend: Option<string>)
    : (r: PaymentResponse)
    ensures r.gateway == g && r.amount == amount && r.currency == currency
    ensures r.status == Pending <==> outcome.Created?
    ensures r.status == Failed <==> outcome.CreateRaised?
    ensures outcome.CreateRaised? ==> r.paymentId == "" && r.errorMessage == Some(outcome.message)
    ensures outcome.Created? ==> r.paymentId == outcome.id && r.errorMessage.None?
  {
    match outcome
    case CreateRaised(msg) => PaymentResponse("", Failed, g, amount, currency, None, None, Some(msg))
    case Created(id, approval) =>
      match g
      case Stripe => PaymentResponse(id, Pending, Stripe, amount, currency, None, Some(id), None)
      case PayPal => PaymentResponse(id, Pending, PayPal, amount, currency, Some(approval), None, None)
      case Razorpay =>
        PaymentResponse(id, Pending, Razorpay, amount, currency, Some(FrontendUrl(frontend) + "/payment/razorpay/" + id), None, None)
  }

  /** The fields of `PaymentRequest` the manager reads and writes. */
  class PaymentRequest {
    var amount: real
    var currency: string
    var userCountry: string
    var paymentMethod: PaymentMethod
    var gateway: Option<Gateway>

    /** The defaults of the request model: currency "USD", country "US", no gateway. */
    constructor (amount: real, paymentMethod: PaymentMethod)
      ensures this.amount == amount && this.paymentMethod == paymentMethod
      ensures currency == "USD" && userCountry == "US" && gateway.None?
    {
      this.amount := amount;
      this.paymentMethod := paymentMethod;
      currency := "USD";
      userCountry := "US";
      gateway := None;
    }
  }

  /**
   * The manager's `create_payment`: a request without a gateway gets the preferred one written
   * into it, and that gateway creates the payment. Every gateway is registered, so the manager's
   * own failure branch is not reached; a failure comes back from the gateway, FAILED and with
   * the request's amount and currency.
   */
  method CreatePayment(request: PaymentRequest, sdk: Gateway -> CreateOutcome, frontend: Option<string>)
    returns (response: PaymentResponse)
    modifies request`gateway
    ensures old(request.gateway).Some? ==> request.gateway == old(request.gateway)
    ensures old(request.gateway).None? ==> request.gateway == Some(PreferredGateway(request.userCountry, request.paymentMethod))
    ensures request.gateway.Some?
    ensures response == GatewayCreate(request.gateway.value, request.amount, request.currency, sdk(request.gateway.value), frontend)
    ensures response.status == Failed ==> response.amount == request.amount && response.currency == request.currency
  {
    if request.gateway.None? {
      request.gateway := Some(PreferredGateway(request.userCountry, request.paymentMethod));
    }
    var g := request.gateway.value;
    response := GatewayCreate(g, request.amount, request.currency, sdk(g), frontend);
  }

  // ---------------------------------------------------------------------------------------
  // Verifying a payment

  const StripeStatuses: map<string, PaymentStatus> := map[
    "succeeded" := PaymentStatus.Success, "processing" := Pending, "requires_payment_method" := Failed, "canceled" := Cancelled]

  const PayPalStatuses: map<string, PaymentStatus> := map[
    "approved" := PaymentStatus.Success, "pending" := Pending, "failed" := Failed, "canceled" := Cancelled]

  const RazorpayStatuses: map<string, PaymentStatus> := map[
    "captured" := PaymentStatus.Success, "authorized" := Pending, "failed" := Failed, "refunded" := Refunded]

  function StatusMap(g: Gateway): (statuses: map<string, PaymentStatus>)
    ensures |statuses| == 4
    ensures Refunded in statuses.Values <==> g == Razorpay
  {
    match g
    case Stripe => StripeStatuses
    case PayPal => PayPalStatuses
    case Razorpay =>
      assert RazorpayStatuses["refunded"] == Refunded;
      RazorpayStatuses
  }

  /** `status_map.get(provider_status, PaymentStatus.FAILED)` */
  function ProviderStatus(g: Gateway, providerStatus: string): (s: PaymentStatus)
    ensures providerStatus !in StatusMap(g) ==> s == Failed
  {
    var m := StatusMap(g);
    if providerStatus in m then m[providerStatus] else Failed
  }

  /**
   * A payment counts as successful for exactly one provider word per gateway ("succeeded",
   * "approved", "captured"); only Razorpay reports refunds, and every word a gateway does not
   * know reads as FAILED.
   */
  lemma ProviderStatusSuccess(g: Gateway, providerStatus: string)
    ensures ProviderStatus(g, providerStatus) == PaymentStatus.Success <==>
      providerStatus == (match g case Stripe => "succeeded" case PayPal => "approved" case Razorpay => "captured")
    ensures ProviderStatus(g, providerStatus) == Refunded <==> g == Razorpay && providerStatus == "refunded"
    ensures ProviderStatus(g, providerStatus) != Pending || providerStatus in StatusMap(g)
  {
  }

  /**
   * What a gateway's SDK returned for a lookup: the provider's status word, the amount as the
   * SDK reports it (cents or paise for Stripe and Razorpay, the parsed total for PayPal), the
   * currency and the id; or that it raised.
   */
  datatype VerifyOutcome =
    | Retrieved(providerStatus: string, amount: real, currency: string, id: string)
    | VerifyRaised(message: string)

  /** The currency a failed lookup reports. */
  function FallbackCurrency(g: Gateway): string {
    if g == Razorpay then "INR" else "USD"
  }

  /** The `verify_payment` of gateway `g`. */
  function GatewayVerify(g: Gateway, paymentId: string, outcome: VerifyOutcome): (r: PaymentResponse)
    ensures r.gateway == g && r.paymentId == paymentId
    ensures outcome.VerifyRaised? ==> r.status == Failed && r.amount == 0.0 && r.currency == FallbackCurrency(g)
    ensures outcome.Retrieved? ==> r.status == ProviderStatus(g, outcome.providerStatus) && r.transactionId == Some(outcome.id)
  {
    match outcome
    case VerifyRaised(msg) => PaymentResponse(paymentId, Failed, g, 0.0, FallbackCurrency(g), None, None, Some(msg))
    case Retrieved(word, amount, currency, id) =>
      match g
      case Stripe => PaymentResponse(paymentId, ProviderStatus(g, word), g, amount / 100.0, Upper(currency), None, Some(id), None)
      case PayPal => PaymentResponse(paymentId, ProviderStatus(g, word), g, amount, currency, None, Some(id), None)
      case Razorpay => PaymentResponse(paymentId, ProviderStatus(g, word), g, amount / 100.0, Upper(currency), None, Some(id), None)
  }

  // ---------------------------------------------------------------------------------------
  // Payment methods offered

  /** One `{"id": ..., "name": ..., "gateway": ...}` entry. */
  datatype MethodOffer = MethodOffer(id: string, name: string, gateway: Gateway)

  /** `get_supported_payment_methods` */
  function SupportedPaymentMethods(country: string): (offers: seq<MethodOffer>)
    ensures |offers| == 5 <==> Upper(country) == "IN"
    ensures forall k :: 0 <= k < |offers| ==> (offers[k].gateway == Razorpay <==> Upper(country) == "IN")
  {
    if Upper(country) == "IN" then
      [MethodOffer("credit_card", "Credit Card", Razorpay),
       MethodOffer("debit_card", "Debit Card", Razorpay),
       MethodOffer("upi", "UPI", Razorpay),
       MethodOffer("net_banking", "Net Banking", Razorpay),
       MethodOffer("wallet", "Digital Wallets", Razorpay)]
    else
      [MethodOffer("credit_card", "Credit Card", Stripe),
       MethodOffer("debit_card", "Debit Card", Stripe),
       MethodOffer("paypal", "PayPal", PayPal)]
  }

  /**
   * India is offered five methods, all through Razorpay; every other country three, PayPal only
   * for the PayPal method. No Indian offer goes through PayPal and no other country is offered
   * UPI, net banking or wallets.
   */
  lemma SupportedPaymentMethodsShape(country: string)
    ensures Upper(country) == "IN" ==>
      && |SupportedPaymentMethods(country)| == 5
      && forall k :: 0 <= k < 5 ==> SupportedPaymentMethods(country)[k].gateway == Razorpay
    ensures Upper(country) != "IN" ==>
      && |SupportedPaymentMethods(country)| == 3
      && forall k :: 0 <= k < 3 ==> (SupportedPaymentMethods(country)[k].gateway == PayPal <==> SupportedPaymentMethods(country)[k].id == "paypal")
  {
  }

  /**
   * The offer list and the selection disagree on Indian cards: the card offers name Razorpay,
   * yet a card payment is routed to Stripe.
   */
  lemma IndianCardOffersDisagreeWithSelection(country: string)
    requires Upper(country) == "IN"
    ensures SupportedPaymentMethods(country)[0].id == "credit_card" && SupportedPaymentMethods(country)[0].gateway == Razorpay
    ensures PreferredGateway(country, CreditCard) == Stripe
  {
  }
}
