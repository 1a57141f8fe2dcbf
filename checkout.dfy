/** The payment button: it loads the gateway's checkout script once, and a
    click runs order creation, then opens the gateway's widget; the widget
    later calls back with the gateway's response, which is verified and
    saved before the success callback runs. Every network and SDK result is
    an input, and every visible step (requests, the widget, toasts, the
    `loading` flag, the callback) is recorded, in order, in a trace. */
module Checkout {
  import opened Js
  import opened Ui
  import PaymentVerification

  /** The component's props. `hasCallback` says whether `onPaymentSuccess`
      was passed (the workshop page passes none). */
  datatype Props = Props(finalAmt: Option<Value>, fullName: Option<Value>, email: Option<Value>,
                         contact: Option<Value>, stream: Option<Value>, qualification: Option<Value>,
                         hasCallback: bool)

  /** An element of the document, by id. */
  datatype Script = Script(id: string, src: string, async: bool)

  const ScriptId := "razorpay-script"
  const CheckoutScript := Script(ScriptId, "https://checkout.razorpay.com/v1/checkout.js", true)

  /** `document.getElementById(id)` finds something. */
  predicate HasElement(dom: seq<Script>, id: string)
  {
    exists i :: 0 <= i < |dom| && dom[i].id == id
  }

  /** The document after `loadScript`. */
  function AfterLoadScript(dom: seq<Script>): (r: seq<Script>)
    ensures HasElement(dom, ScriptId) ==> r == dom
    ensures !HasElement(dom, ScriptId) ==> r == dom + [CheckoutScript]
  {
    if HasElement(dom, ScriptId) then dom else dom + [CheckoutScript]
  }

  function CountId(dom: seq<Script>, id: string): nat
  {
    if dom == [] then 0 else (if dom[|dom| - 1].id == id then 1 else 0) + CountId(dom[..|dom| - 1], id)
  }

  lemma {:induction false} CountIdZero(dom: seq<Script>, id: string)
    ensures CountId(dom, id) == 0 <==> !HasElement(dom, id)
  {
    if dom != [] {
      var init := dom[..|dom| - 1];
      CountIdZero(init, id);
      assert forall i :: 0 <= i < |init| ==> init[i] == dom[i];
      if HasElement(init, id) {
        var i :| 0 <= i < |init| && init[i].id == id;
        assert dom[i].id == id;
      }
    }
  }

  /** The script is added at most once: with no such element it adds one,
      otherwise it adds none; running it again changes nothing. */
  lemma ScriptAddedAtMostOnce(dom: seq<Script>)
    ensures CountId(AfterLoadScript(dom), ScriptId) == if CountId(dom, ScriptId) == 0 then 1 else CountId(dom, ScriptId)
    ensures AfterLoadScript(AfterLoadScript(dom)) == AfterLoadScript(dom)
  {
    CountIdZero(dom, ScriptId);
    var r := AfterLoadScript(dom);
    if !HasElement(dom, ScriptId) {
      assert r[..|r| - 1] == dom;
      assert r[|r| - 1].id == ScriptId;
      assert HasElement(r, ScriptId);
    }
  }

  /** The widget's options. */
  datatype WidgetOptions = WidgetOptions(key: Option<string>, amount: Option<Value>, currency: string,
                                         name: string, description: string, orderId: Option<Value>,
                                         prefillName: Option<Value>, prefillEmail: Option<Value>,
                                         prefillContact: Option<Value>, color: string)

  /** The row sent to the sheet after a verified payment. */
  datatype SaveRow = SaveRow(fullName: Option<Value>, email: Option<Value>, contact: Option<Value>,
                             stream: Option<Value>, qualification: Option<Value>, amount: Option<Value>,
                             paymentId: Option<Value>, orderId: Option<Value>)

  /** One visible step. */
  datatype Effect =
    | SetLoading(on: bool)
    | PostOrder(amount: Option<Value>, currency: string)
    | OpenWidget(options: WidgetOptions)
    | PostVerify(orderCreationId: Option<Value>, razorpayPaymentId: Option<Value>, razorpaySignature: Option<Value>)
    | PostSave(row: SaveRow)
    | ShowToast(toast: Toast)
    | CallPaymentSuccess

  const ScriptMissing := "Razorpay script not loaded. Refresh and try again."
  const PaymentFallback := "An error occurred during payment."
  const AfterPaymentFallback := "An error occurred while saving payment details."
  const VerificationFailed := "Payment verification failed."
  const SaveFailed := "Failed to save data to Google Sheets."
  const CallbackMissing := "onPaymentSuccess is not a function"
  /** The success toast sets no variant; "default" stands for that. */
  const SuccessToast := Toast("Success", "Payment completed and details saved successfully.", "default")

  /** A caught error's toast: `error.message || fallback`. */
  function ErrorToast(message: string, fallback: string): (t: Toast)
    ensures t.title == "Error" && t.variant == "destructive"
    ensures t.description == if message == "" then fallback else message
  {
    Toast("Error", if message == "" then fallback else message, "destructive")
  }

  function Options(props: Props, key: Option<string>, orderId: Option<Value>): WidgetOptions
  {
    WidgetOptions(key, props.finalAmt, "INR", "Learning Destiny", "Course Enrollment Payment", orderId,
                  props.fullName, props.email, props.contact, "#FBA758")
  }

  /** The `try` block of `processPayment` after the order request: a failed
      or unparsable order reply, or a missing SDK, ends in an error toast;
      otherwise the widget opens with the order's id. */
  function ClickSteps(props: Props, key: Option<string>, order: Fetched, sdkLoaded: bool): seq<Effect>
  {
    match order
    case NetworkError(m) => [ShowToast(ErrorToast(m, PaymentFallback))]
    case Reply(_, Unparsable(m)) => [ShowToast(ErrorToast(m, PaymentFallback))]
    case Reply(_, Json(data)) =>
      if !sdkLoaded then [ShowToast(ErrorToast(ScriptMissing, PaymentFallback))]
      else
        match Property(data, "orderId")
        case ThrewTypeError => [ShowToast(ErrorToast(NullReadMessage("orderId"), PaymentFallback))]
        case Read(orderId) => [OpenWidget(Options(props, key, orderId))]
  }

  /** A click: `loading` on, the order request, the steps above, and
      `loading` off in `finally`. */
  function ClickEffects(props: Props, key: Option<string>, order: Fetched, sdkLoaded: bool): (es: seq<Effect>)
    ensures |es| == 4
    ensures es[0] == SetLoading(true) && es[1] == PostOrder(props.finalAmt, "INR") && es[3] == SetLoading(false)
  {
    [SetLoading(true), PostOrder(props.finalAmt, "INR")] + ClickSteps(props, key, order, sdkLoaded) + [SetLoading(false)]
  }

  /** The order id a click hands to the widget, when it opens one. */
  function OpenedOrderId(order: Fetched, sdkLoaded: bool): Option<Option<Value>>
  {
    if order.Reply? && order.body.Json? && sdkLoaded && Property(order.body.data, "orderId").Read? then
      Some(Property(order.body.data, "orderId").value)
    else None
  }

  /** The save stage: an accepted save shows the success toast and then
      calls `onPaymentSuccess` (a TypeError if it was not passed). */
  function SaveSteps(props: Props, save: Fetched): seq<Effect>
  {
    match save
    case NetworkError(m) => [ShowToast(ErrorToast(m, AfterPaymentFallback))]
    case Reply(_, Unparsable(m)) => [ShowToast(ErrorToast(m, AfterPaymentFallback))]
    case Reply(_, Json(data)) =>
      match Property(data, "success")
      case ThrewTypeError => [ShowToast(ErrorToast(NullReadMessage("success"), AfterPaymentFallback))]
      case Read(success) =>
        if !Truthy(success) then [ShowToast(ErrorToast(SaveFailed, AfterPaymentFallback))]
        else if props.hasCallback then [ShowToast(SuccessToast), CallPaymentSuccess]
        else [ShowToast(SuccessToast), ShowToast(ErrorToast(CallbackMissing, AfterPaymentFallback))]
  }

  function Row(props: Props, orderId: Option<Value>, gateway: Obj): SaveRow
  {
    SaveRow(props.fullName, props.email, props.contact, props.stream, props.qualification,
            props.finalAmt, Get(gateway, "razorpay_payment_id"), orderId)
  }

  /** The widget's `handler`: verify, then (only if verified) save. */
  function HandlerEffects(props: Props, orderId: Option<Value>, gateway: Obj, verify: Fetched, save: Fetched): seq<Effect>
  {
    [PostVerify(orderId, Get(gateway, "razorpay_payment_id"), Get(gateway, "razorpay_signature"))]
    + match verify
      case NetworkError(m) => [ShowToast(ErrorToast(m, AfterPaymentFallback))]
      case Reply(_, Unparsable(m)) => [ShowToast(ErrorToast(m, AfterPaymentFallback))]
      case Reply(_, Json(data)) =>
        match Property(data, "success")
        case ThrewTypeError => [ShowToast(ErrorToast(NullReadMessage("success"), AfterPaymentFallback))]
        case Read(success) =>
          if !Truthy(success) then [ShowToast(ErrorToast(VerificationFailed, AfterPaymentFallback))]
          else [PostSave(Row(props, orderId, gateway))] + SaveSteps(props, save)
  }

  /** `verifyData.success` / `saveData.success` is truthy. */
  predicate Succeeded(reply: Fetched)
  {
    reply.Reply? && reply.body.Json? && Property(reply.body.data, "success").Read?
    && Truthy(Property(reply.body.data, "success").value)
  }

  class PaymentButton {
    const props: Props
    const key: Option<string>
    var loading: bool
    var dom: seq<Script>
    var trace: seq<Effect>
    /** The order ids captured by the widgets opened so far. */
    var widgets: seq<Option<Value>>

    constructor(props: Props, key: Option<string>, dom: seq<Script>)
      ensures this.props == props && this.key == key && this.dom == dom
      ensures !loading && trace == [] && widgets == []
    {
      this.props := props;
      this.key := key;
      this.dom := dom;
      loading := false;
      trace := [];
      widgets := [];
    }

    /** The mount effect `loadScript`. */
    method LoadScript()
      modifies this
      ensures dom == AfterLoadScript(old(dom))
      ensures loading == old(loading) && trace == old(trace) && widgets == old(widgets)
    {
      if HasElement(dom, ScriptId) {
        return;
      }
      dom := dom + [CheckoutScript];
    }

    /** `processPayment`, up to the point where `open()` returns and
        `finally` clears `loading`; the widget's handler runs later. */
    method ProcessPayment(order: Fetched, sdkLoaded: bool)
      modifies this
      ensures trace == old(trace) + ClickEffects(props, key, order, sdkLoaded)
      ensures !loading
      ensures widgets == old(widgets) + (if OpenedOrderId(order, sdkLoaded).Some? then [OpenedOrderId(order, sdkLoaded).value] else [])
      ensures dom == old(dom)
    {
      loading := true;
      trace := trace + [SetLoading(true)];
      trace := trace + [PostOrder(props.finalAmt, "INR")];
      var steps := ClickSteps(props, key, order, sdkLoaded);
      if OpenedOrderId(order, sdkLoaded).Some? {
        widgets := widgets + [OpenedOrderId(order, sdkLoaded).value];
      }
      trace := trace + steps;
      loading := false;
      trace := trace + [SetLoading(false)];
    }

    /** The gateway calls the handler of the widget opened `w`-th, with its
        response object. */
    method PaymentHandler(w: nat, gateway: Obj, verify: Fetched, save: Fetched)
      requires w < |widgets|
      modifies this
      ensures trace == old(trace) + HandlerEffects(props, old(widgets)[w], gateway, verify, save)
      ensures loading == old(loading) && widgets == old(widgets) && dom == old(dom)
    {
      trace := trace + HandlerEffects(props, widgets[w], gateway, verify, save);
    }
  }

  // ----- Properties of the step sequence -----

  /** `loading` goes on first and off last, and a click never sends the
      verification or the save: those wait for the widget's handler. */
  lemma ClickBracketsLoading(props: Props, key: Option<string>, order: Fetched, sdkLoaded: bool)
    ensures var es := ClickEffects(props, key, order, sdkLoaded);
            && es[0] == SetLoading(true) && es[|es| - 1] == SetLoading(false)
            && forall i :: 0 <= i < |es| ==> !es[i].PostVerify? && !es[i].PostSave? && !es[i].CallPaymentSuccess?
  {
  }

  /** The widget opens exactly when the order reply parsed, the SDK is
      present and the order data is not `null`; without the SDK the click
      ends in the "script not loaded" toast. */
  lemma WidgetOpensOnlyWithSdk(props: Props, key: Option<string>, order: Fetched, sdkLoaded: bool)
    ensures ClickEffects(props, key, order, sdkLoaded)[2].OpenWidget? <==> OpenedOrderId(order, sdkLoaded).Some?
    ensures !sdkLoaded && order.Reply? && order.body.Json? ==>
              ClickEffects(props, key, order, sdkLoaded)[2] == ShowToast(ErrorToast(ScriptMissing, PaymentFallback))
  {
  }

  /** The same `finalAmt` goes to the order, the widget and the saved row,
      and the order request is in INR. */
  lemma SameAmountEverywhere(props: Props, key: Option<string>, order: Fetched, sdkLoaded: bool,
                             gateway: Obj, verify: Fetched, save: Fetched)
    requires OpenedOrderId(order, sdkLoaded).Some?
    ensures var es := ClickEffects(props, key, order, sdkLoaded);
            es[1] == PostOrder(props.finalAmt, "INR") && es[2].options.amount == props.finalAmt
            && es[2].options.currency == "INR"
    ensures Succeeded(verify) ==>
              HandlerEffects(props, OpenedOrderId(order, sdkLoaded).value, gateway, verify, save)[1].row.amount == props.finalAmt
  {
  }

  /** The verification request carries the widget's order id and the
      gateway's payment id and signature; the saved row pairs that payment
      id with the same order id. */
  lemma RowPairsIds(props: Props, orderId: Option<Value>, gateway: Obj, verify: Fetched, save: Fetched)
    ensures HandlerEffects(props, orderId, gateway, verify, save)[0]
            == PostVerify(orderId, Get(gateway, "razorpay_payment_id"), Get(gateway, "razorpay_signature"))
    ensures Succeeded(verify) ==>
              var row := HandlerEffects(props, orderId, gateway, verify, save)[1].row;
              row.paymentId == Get(gateway, "razorpay_payment_id") && row.orderId == orderId
  {
  }

  /** The save request is sent exactly when verification succeeded; a
      readable unsuccessful verification reports "Payment verification
      failed." and nothing else. */
  lemma SaveOnlyAfterVerification(props: Props, orderId: Option<Value>, gateway: Obj, verify: Fetched, save: Fetched)
    ensures var es := HandlerEffects(props, orderId, gateway, verify, save);
            (exists i :: 0 <= i < |es| && es[i].PostSave?) <==> Succeeded(verify)
    ensures verify.Reply? && verify.body.Json? && Property(verify.body.data, "success").Read? && !Succeeded(verify) ==>
              HandlerEffects(props, orderId, gateway, verify, save)
              == [HandlerEffects(props, orderId, gateway, verify, save)[0],
                  ShowToast(ErrorToast(VerificationFailed, AfterPaymentFallback))]
  {
    var es := HandlerEffects(props, orderId, gateway, verify, save);
    if Succeeded(verify) {
      assert es[1].PostSave?;
    } else {
      assert |es| == 2 && !es[0].PostSave? && !es[1].PostSave?;
    }
  }

  /** `onPaymentSuccess` runs exactly when verification and save both
      succeed and the callback was passed, and then as the last step, right
      after the success toast. */
  lemma CallbackLastAfterSuccessToast(props: Props, orderId: Option<Value>, gateway: Obj, verify: Fetched, save: Fetched)
    ensures var es := HandlerEffects(props, orderId, gateway, verify, save);
            (exists i :: 0 <= i < |es| && es[i] == CallPaymentSuccess)
            <==> Succeeded(verify) && Succeeded(save) && props.hasCallback
    ensures var es := HandlerEffects(props, orderId, gateway, verify, save);
            Succeeded(verify) && Succeeded(save) && props.hasCallback ==>
              |es| == 4 && es[2] == ShowToast(SuccessToast) && es[3] == CallPaymentSuccess
  {
    var es := HandlerEffects(props, orderId, gateway, verify, save);
    if Succeeded(verify) {
      if Succeeded(save) && props.hasCallback {
        assert es[3] == CallPaymentSuccess;
      } else {
        assert forall i :: 0 <= i < |es| ==> es[i] != CallPaymentSuccess;
      }
    } else {
      assert |es| == 2;
    }
  }

  /** Without a callback (as on the workshop page) a fully successful
      payment shows the success toast and then an error toast. */
  lemma MissingCallbackEndsInError(props: Props, orderId: Option<Value>, gateway: Obj, verify: Fetched, save: Fetched)
    requires Succeeded(verify) && Succeeded(save) && !props.hasCallback
    ensures var es := HandlerEffects(props, orderId, gateway, verify, save);
            |es| == 4 && es[2] == ShowToast(SuccessToast)
            && es[3] == ShowToast(Toast("Error", CallbackMissing, "destructive"))
  {
  }

  /** The body the verification route parses: JSON.stringify drops
      `undefined` fields; only string fields are modelled. */
  function VerifyBody(orderCreationId: Option<Value>, razorpayPaymentId: Option<Value>,
                      razorpaySignature: Option<Value>): map<string, string>
  {
    var m1: map<string, string> := if orderCreationId.Some? && orderCreationId.value.Str? then map["orderCreationId" := orderCreationId.value.s] else map[];
    var m2 := if razorpayPaymentId.Some? && razorpayPaymentId.value.Str? then m1["razorpayPaymentId" := razorpayPaymentId.value.s] else m1;
    if razorpaySignature.Some? && razorpaySignature.value.Str? then m2["razorpaySignature" := razorpaySignature.value.s] else m2
  }

  /** Against the verification route: the request the handler sends for
      order `o`, payment `p` and signature `sig` is accepted exactly when
      `sig` is the HMAC of "o|p" under the configured secret. */
  lemma VerifyRequestAgainstRoute(hmac: PaymentVerification.Hmac, secret: string,
                                  props: Props, o: string, p: string, sig: string,
                                  verify: Fetched, save: Fetched)
    requires secret != ""
    ensures var req := HandlerEffects(props, Some(Str(o)), map["razorpay_payment_id" := Str(p), "razorpay_signature" := Str(sig)], verify, save)[0];
            var body := VerifyBody(req.orderCreationId, req.razorpayPaymentId, req.razorpaySignature);
            PaymentVerification.Verify(hmac, Some(secret), PaymentVerification.Fields(body))
            == if sig == hmac(secret, o + "|" + p) then PaymentVerification.Verified else PaymentVerification.Rejected
  {
    var body := VerifyBody(Some(Str(o)), Some(Str(p)), Some(Str(sig)));
    assert body == map["orderCreationId" := o, "razorpayPaymentId" := p, "razorpaySignature" := sig];
    assert PaymentVerification.SignedMessage(Some(o), Some(p)) == o + "|" + p;
  }
}
