/** The payment verification endpoint: it recomputes the gateway's
    signature as the hex HMAC-SHA256 (RFC 2104 over SHA-256, FIPS 180-4) of
    `orderId + "|" + paymentId` under the server's key secret and accepts
    the payment exactly when the client-supplied signature is that string.
    HMAC itself is not modelled: every function takes it as a parameter. */
module PaymentVerification {
  import opened Js

  /** `crypto.createHmac("sha256", key).update(message).digest("hex")`. */
  type Hmac = (string, string) -> string

  const SecretMissing := "Razorpay key secret is not defined in environment variables."

  /** What escapes the route: the rejection of `request.json()` for text
      that is not JSON, the TypeError of destructuring a `null` body, or
      the route's own error. */
  datatype Exception =
    | InvalidJson
    | NullDestructured
    | Error(message: string)

  /** What the route produces: an exception, which escapes before any
      response is built, or a JSON response. */
  datatype Outcome =
    | Thrown(error: Exception)
    | Responded(status: int, success: bool, message: string)

  /** The request body as `request.json()` leaves it: not JSON, the JSON
      `null`, or any other JSON value with its string properties (a number,
      a string or an array has none of the three fields). */
  datatype Body =
    | NotJson
    | NullBody
    | Fields(fields: map<string, string>)

  datatype Result<T> = Ok(value: T) | Err(error: string)

  const Verified: Outcome := Responded(200, true, "Payment verified successfully.")
  const Rejected: Outcome := Responded(400, false, "Payment verification failed.")

  /** A field of the parsed request body: the client sends strings, and a
      missing field reads as `undefined`. */
  function Field(body: map<string, string>, key: string): Option<string>
  {
    if key in body then Some(body[key]) else None
  }

  /** An operand of `+` in a string concatenation: `undefined` prints as
      "undefined". */
  function AsConcatOperand(v: Option<string>): string
  {
    match v
    case None => "undefined"
    case Some(s) => s
  }

  /** The signed message: the order id, one `|`, the payment id. */
  function SignedMessage(orderId: Option<string>, paymentId: Option<string>): string
  {
    AsConcatOperand(orderId) + "|" + AsConcatOperand(paymentId)
  }

  /** `generatedSignature`: throws unless the secret is set and non-empty. */
  function GeneratedSignature(hmac: Hmac, secret: Option<string>,
                              orderId: Option<string>, paymentId: Option<string>): (r: Result<string>)
    ensures r.Err? <==> secret == None || secret == Some("")
    ensures r.Err? ==> r.error == SecretMissing
    ensures r.Ok? ==> r.value == hmac(secret.value, SignedMessage(orderId, paymentId))
  {
    if secret == None || secret == Some("") then Err(SecretMissing)
    else Ok(hmac(secret.value, SignedMessage(orderId, paymentId)))
  }

  /** `POST`: the route's decision. The body is parsed and destructured
      first, so a body that is not JSON or is `null` throws whatever the
      secret; then a missing secret throws; then the signatures compare. */
  function Verify(hmac: Hmac, secret: Option<string>, body: Body): (o: Outcome)
    ensures body == NotJson ==> o == Thrown(InvalidJson)
    ensures body == NullBody ==> o == Thrown(NullDestructured)
    ensures body.Fields? ==> (o.Thrown? <==> secret == None || secret == Some(""))
    ensures body.Fields? && o.Thrown? ==> o.error == Error(SecretMissing)
    ensures o == Verified <==>
              && body.Fields? && o.Responded?
              && Field(body.fields, "razorpaySignature")
                 == Some(hmac(secret.value, SignedMessage(Field(body.fields, "orderCreationId"),
                                                          Field(body.fields, "razorpayPaymentId"))))
    ensures o.Responded? ==> o == Verified || o == Rejected
  {
    match body
    case NotJson => Thrown(InvalidJson)
    case NullBody => Thrown(NullDestructured)
    case Fields(fields) =>
      match GeneratedSignature(hmac, secret, Field(fields, "orderCreationId"), Field(fields, "razorpayPaymentId"))
      case Err(e) => Thrown(Error(e))
      case Ok(signature) =>
        if Some(signature) != Field(fields, "razorpaySignature") then Rejected else Verified
  }

  /** The decision reads three body fields and the secret, nothing else. */
  lemma DependsOnlyOnThreeFields(hmac: Hmac, secret: Option<string>, b1: map<string, string>, b2: map<string, string>)
    requires forall k :: k in {"orderCreationId", "razorpayPaymentId", "razorpaySignature"} ==> Field(b1, k) == Field(b2, k)
    ensures Verify(hmac, secret, Fields(b1)) == Verify(hmac, secret, Fields(b2))
  {
    assert Field(b1, "orderCreationId") == Field(b2, "orderCreationId");
    assert Field(b1, "razorpayPaymentId") == Field(b2, "razorpayPaymentId");
    assert Field(b1, "razorpaySignature") == Field(b2, "razorpaySignature");
  }

  /** With a configured secret, any signature other than the expected one
      (one altered character, say) is rejected with 400. */
  lemma OtherSignatureRejected(hmac: Hmac, secret: string, orderId: string, paymentId: string, signature: string)
    requires secret != ""
    requires signature != hmac(secret, orderId + "|" + paymentId)
    ensures Verify(hmac, Some(secret),
                   Fields(map["orderCreationId" := orderId, "razorpayPaymentId" := paymentId, "razorpaySignature" := signature]))
            == Rejected
  {
    var body := map["orderCreationId" := orderId, "razorpayPaymentId" := paymentId, "razorpaySignature" := signature];
    assert SignedMessage(Field(body, "orderCreationId"), Field(body, "razorpayPaymentId")) == orderId + "|" + paymentId;
  }

  /** The worked example: order `order_abc`, payment `pay_123`, secret
      `s3cr3t` verify exactly against the HMAC of "order_abc|pay_123". */
  lemma WorkedExample(hmac: Hmac, signature: string)
    ensures Verify(hmac, Some("s3cr3t"),
                   Fields(map["orderCreationId" := "order_abc", "razorpayPaymentId" := "pay_123", "razorpaySignature" := signature]))
            == (if signature == hmac("s3cr3t", "order_abc|pay_123") then Verified else Rejected)
  {
    var body := map["orderCreationId" := "order_abc", "razorpayPaymentId" := "pay_123", "razorpaySignature" := signature];
    assert SignedMessage(Field(body, "orderCreationId"), Field(body, "razorpayPaymentId")) == "order_abc|pay_123";
  }

  /** An unreadable body throws even when the secret is missing too: the
      body is read first. */
  lemma BodyReadBeforeSecret(hmac: Hmac, secret: Option<string>, body: Body)
    requires !body.Fields?
    ensures Verify(hmac, secret, body).Thrown?
    ensures Verify(hmac, secret, body).error != Error(SecretMissing)
  {
  }

  /** A body without a signature is rejected whatever the ids. */
  lemma MissingSignatureRejected(hmac: Hmac, secret: string, body: map<string, string>)
    requires secret != "" && "razorpaySignature" !in body
    ensures Verify(hmac, Some(secret), Fields(body)) == Rejected
  {
  }

  /** The position of the first `|`, or the length when there is none. */
  function FirstBar(s: string): (k: nat)
    ensures k <= |s|
  {
    if s == "" then 0 else if s[0] == '|' then 0 else 1 + FirstBar(s[1..])
  }

  lemma {:induction false} FirstBarAfterOrderId(o: string, p: string)
    requires '|' !in o
    ensures FirstBar(o + "|" + p) == |o|
  {
    if o != "" {
      assert (o + "|" + p)[1..] == o[1..] + "|" + p;
      FirstBarAfterOrderId(o[1..], p);
    }
  }

  /** When the order id holds no `|`, the signed message determines both
      ids: the separator is where the first `|` is. */
  lemma MessageDeterminesIds(o1: string, p1: string, o2: string, p2: string)
    requires '|' !in o1 && '|' !in o2
    requires o1 + "|" + p1 == o2 + "|" + p2
    ensures o1 == o2 && p1 == p2
  {
    var m := o1 + "|" + p1;
    FirstBarAfterOrderId(o1, p1);
    FirstBarAfterOrderId(o2, p2);
    assert o1 == m[..|o1|] == o2;
    assert p1 == m[|o1| + 1..] == p2;
  }

  /** Without that condition two different id pairs sign the same message. */
  lemma SeparatorInOrderIdCollides()
    ensures SignedMessage(Some("a|b"), Some("c")) == SignedMessage(Some("a"), Some("b|c"))
  {
  }
}
