/**
 * The payment routes: the public PayPal configuration, order creation with
 * its price check, and order capture with the purchase insert and the
 * confirmation mail. The same create/capture logic appears twice, in the
 * payments router and in the combined API router; `Route` tells the two
 * capture variants apart (the payments router also stores a `status` column).
 *
 * The PayPal SDK, the database pool and the mailer are not modelled: the
 * gateway's answer, a failure of the insert for any reason other than a
 * duplicate order id, and whether the mail goes through are inputs.
 * Prices are the JavaScript values the client sends; a number is a `real`.
 */
module Payments {
  import opened JsCore

  /** The `packagePrice` field of the request body. */
  datatype PriceInput =
    | Missing                // undefined
    | Null
    | Bool(b: bool)
    | Num(x: real)           // a finite number: a JSON body carries no infinity
    | NaN
    | Text(s: string)

  /** JavaScript truthiness of the field. */
  predicate Truthy(p: PriceInput)
  {
    match p
    case Missing => false
    case Null => false
    case Bool(b) => b
    case Num(x) => x != 0.0
    case NaN => false
    case Text(s) => s != []
  }

  predicate Digit(c: char) { '0' <= c <= '9' }

  /** `parseFloat` on a string is not NaN exactly when, after leading whitespace and
      an optional sign, the text starts with `Infinity`, a digit, or a point and a digit. */
  predicate NumericPrefix(s: string)
  {
    var t := TrimStart(s);
    var u := if t != [] && (t[0] == '+' || t[0] == '-') then t[1..] else t;
    StartsWith(u, "Infinity") || (u != [] && Digit(u[0])) || (|u| >= 2 && u[0] == '.' && Digit(u[1]))
  }

  /** `!isNaN(parseFloat(p))`: numbers parse to themselves, other values through their
      string form (`true`, `false` and `null` do not parse). */
  predicate ParsesAsNumber(p: PriceInput)
    ensures p.Num? ==> ParsesAsNumber(p)
    ensures p.Missing? || p.Null? || p.Bool? || p.NaN? ==> !ParsesAsNumber(p)
    // a string that parses has something besides leading whitespace
    ensures p.Text? && ParsesAsNumber(p) ==> TrimStart(p.s) != []
  {
    match p
    case Num(_) => true
    case Text(s) => NumericPrefix(s)
    case _ => false
  }

  datatype CreateOutcome = OrderCreated(orderId: string) | CreateError
  datatype CreateReply = InvalidPrice | Created(orderId: string) | CreateFailed

  function CreateStatus(r: CreateReply): int
  {
    match r
    case InvalidPrice => 400
    case Created(_) => 201
    case CreateFailed => 500
  }

  /** `POST /create-order`: the reply, and whether the gateway was called; `gateway`
      is what the gateway would answer. */
  function CreateOrder(price: PriceInput, gateway: CreateOutcome): (r: (CreateReply, bool))
    ensures r.0 == InvalidPrice <==> !(Truthy(price) && ParsesAsNumber(price))
    ensures r.1 <==> r.0 != InvalidPrice
    ensures r.0.Created? <==> r.1 && gateway.OrderCreated?
    ensures r.0.Created? ==> r.0.orderId == gateway.orderId
    ensures CreateStatus(r.0) == 201 || !r.0.Created?
  {
    if !Truthy(price) || !ParsesAsNumber(price) then (InvalidPrice, false)
    else match gateway
      case OrderCreated(id) => (Created(id), true)
      case CreateError => (CreateFailed, true)
  }

  /** A rejected price never reaches the gateway: the reply is the same whatever the
      gateway would have said. */
  lemma PriceCheckedBeforeGateway(price: PriceInput, g1: CreateOutcome, g2: CreateOutcome)
    requires !Truthy(price) || !ParsesAsNumber(price)
    ensures CreateOrder(price, g1) == CreateOrder(price, g2) == (InvalidPrice, false)
  {
  }

  /** Zero, the empty string and `true` are refused. */
  lemma RefusedPrices(g: CreateOutcome)
    ensures CreateOrder(Num(0.0), g).0 == InvalidPrice
    ensures CreateOrder(Text(""), g).0 == InvalidPrice
    ensures CreateOrder(Bool(true), g).0 == InvalidPrice
  {
  }

  /** Text that starts with a lower-case letter has no numeric prefix and is refused:
      `"abc"` never reaches the gateway. */
  lemma LetterLedTextRefused(s: string, g: CreateOutcome)
    requires s != [] && 'a' <= s[0] <= 'z'
    ensures CreateOrder(Text(s), g).0 == InvalidPrice
  {
    assert !IsSpace(s[0]);
    assert TrimStart(s) == s;
    assert s[0] != "Infinity"[0];
    assert !StartsWith(s, "Infinity") by {
      if |"Infinity"| <= |s| {
        assert s[..|"Infinity"|][0] == s[0];
      }
    }
  }

  /** Every non-zero number passes the check, negative amounts included. */
  lemma NonZeroNumbersAccepted(x: real, g: CreateOutcome)
    requires x != 0.0
    ensures CreateOrder(Num(x), g).1
  {
  }

  /** Text that starts with a digit, or with a sign and a digit, passes the check
      whatever follows: `"0"`, `"-5"` and `"12abc"` all reach the gateway. */
  lemma DigitLedTextAccepted(s: string, g: CreateOutcome)
    requires (s != [] && Digit(s[0])) || (|s| >= 2 && (s[0] == '-' || s[0] == '+') && Digit(s[1]))
    ensures CreateOrder(Text(s), g).1
  {
    assert !IsSpace(s[0]);
  }

  /** Leading whitespace does not matter to the check. */
  lemma LeadingSpaceSkipped(s: string, g: CreateOutcome)
    requires s != [] && IsSpace(s[0])
    ensures CreateOrder(Text(s), g) == CreateOrder(Text(s[1..]), g)
  {
  }

  datatype PayPalConfig = PayPalConfig(clientId: string, clientSecret: string)
  datatype ConfigReply = ConfigReply(success: bool, paypalClientId: string)

  /** `GET /config`: success and the public client id, nothing else. */
  function PublicConfig(cfg: PayPalConfig): (r: ConfigReply)
    ensures r.success && r.paypalClientId == cfg.clientId
  {
    ConfigReply(true, cfg.clientId)
  }

  /** The secret never influences the configuration reply. */
  lemma ConfigHidesSecret(id: string, s1: string, s2: string)
    ensures PublicConfig(PayPalConfig(id, s1)) == PublicConfig(PayPalConfig(id, s2))
  {
  }

  /** Which router handles the capture. */
  datatype Route = PaymentsRouter | ApiRouter

  datatype CaptureRequest = CaptureRequest(orderId: string, packageName: string, packagePrice: string,
                                           consultationTime: string)

  datatype Purchase = Purchase(userId: nat, packageName: string, packagePrice: string,
                               consultationTime: string, orderId: string, status: Option<string>)

  datatype Confirmation = Confirmation(to: string, packageName: string, packagePrice: string,
                                       consultationTime: string, orderId: string)

  /** The purchases table, keyed by its unique order id, and the confirmations sent. */
  datatype Ledger = Ledger(purchases: map<string, Purchase>, sent: seq<Confirmation>)

  /** What `payPalClient.execute` does for a capture: it throws, or returns a payment. */
  datatype CaptureOutcome = CaptureError | Payment(status: string)

  datatype CaptureReply = CaptureOk(payment: CaptureOutcome) | NotCompleted | CaptureFailed

  function CaptureStatus(r: CaptureReply): int
  {
    match r
    case CaptureOk(_) => 200
    case NotCompleted => 400
    case CaptureFailed => 500
  }

  /** The row each router stores. */
  function PurchaseRow(route: Route, userId: nat, req: CaptureRequest): (p: Purchase)
    ensures p.orderId == req.orderId && p.userId == userId && p.packageName == req.packageName
    ensures p.status == if route == PaymentsRouter then Some("completed") else None
  {
    Purchase(userId, req.packageName, req.packagePrice, req.consultationTime, req.orderId,
             if route == PaymentsRouter then Some("completed") else None)
  }

  /** `POST /capture-order` for the authenticated user, as a function of the ledger.
      An insert is refused when the order id is already stored or `insertFails`. */
  function Capture(l: Ledger, route: Route, userId: nat, email: string, req: CaptureRequest,
                   gateway: CaptureOutcome, insertFails: bool, mailOk: bool): (r: (Ledger, CaptureReply))
    // a row is written only for a completed payment, exactly one, keyed by the order id
    ensures r.0.purchases != l.purchases ==> gateway == Payment("COMPLETED")
    ensures r.1.CaptureOk? <==> gateway == Payment("COMPLETED") && !insertFails && req.orderId !in l.purchases
    ensures r.1.CaptureOk? ==>
              r.1.payment == gateway && r.0.purchases == l.purchases[req.orderId := PurchaseRow(route, userId, req)]
    ensures !r.1.CaptureOk? ==> r.0 == l
    // a payment in any other state is answered 400; a throw or a refused insert 500
    ensures r.1 == NotCompleted <==> gateway.Payment? && gateway.status != "COMPLETED"
    ensures r.1 == CaptureFailed <==> gateway == CaptureError || (gateway == Payment("COMPLETED") && (insertFails || req.orderId in l.purchases))
    // the mail is attempted only after the insert and goes out only if the mailer works
    ensures r.0.sent == if r.1.CaptureOk? && mailOk
                        then l.sent + [Confirmation(email, req.packageName, req.packagePrice, req.consultationTime, req.orderId)]
                        else l.sent
  {
    match gateway
    case CaptureError => (l, CaptureFailed)
    case Payment(status) =>
      if status != "COMPLETED" then (l, NotCompleted)
      else if insertFails || req.orderId in l.purchases then (l, CaptureFailed)
      else
        var purchases := l.purchases[req.orderId := PurchaseRow(route, userId, req)];
        var sent := if mailOk then l.sent + [Confirmation(email, req.packageName, req.packagePrice, req.consultationTime, req.orderId)]
                    else l.sent;
        (Ledger(purchases, sent), CaptureOk(gateway))
  }

  /** `POST /capture-order` of the payments router as written. The mail module exports
      no `sendConfirmationEmail`, so the name imported for it is undefined and the call
      after the insert throws inside the `try`: a completed capture keeps its row, sends
      nothing and is answered 500. */
  function CaptureAsWritten(l: Ledger, userId: nat, req: CaptureRequest,
                            gateway: CaptureOutcome, insertFails: bool): (r: (Ledger, CaptureReply))
    // the table moves as in the intended route, but no confirmation is ever sent
    ensures r.0.purchases == Capture(l, PaymentsRouter, userId, [], req, gateway, insertFails, false).0.purchases
    ensures r.0.sent == l.sent
    // no capture ever succeeds; a completed one is answered as a failure
    ensures !r.1.CaptureOk?
    ensures r.1 == CaptureFailed <==> gateway == CaptureError || gateway == Payment("COMPLETED")
    ensures r.1 == NotCompleted <==> gateway.Payment? && gateway.status != "COMPLETED"
  {
    match gateway
    case CaptureError => (l, CaptureFailed)
    case Payment(status) =>
      if status != "COMPLETED" then (l, NotCompleted)
      else if insertFails || req.orderId in l.purchases then (l, CaptureFailed)
      else (l.(purchases := l.purchases[req.orderId := PurchaseRow(PaymentsRouter, userId, req)]), CaptureFailed)
  }

  /** A first completed capture of a new order: the route as written stores the row and
      answers 500, where the intended route answers success; a retry of the same order
      is refused by the unique order id, so the client never sees success. */
  lemma CompletedCaptureFailsAsWritten(l: Ledger, userId: nat, email: string, req: CaptureRequest, mailOk: bool)
    requires req.orderId !in l.purchases
    ensures var r := CaptureAsWritten(l, userId, req, Payment("COMPLETED"), false);
      r.1 == CaptureFailed && CaptureStatus(r.1) == 500 &&
      r.0.purchases == l.purchases[req.orderId := PurchaseRow(PaymentsRouter, userId, req)] &&
      CaptureAsWritten(r.0, userId, req, Payment("COMPLETED"), false) == (r.0, CaptureFailed)
    ensures Capture(l, PaymentsRouter, userId, email, req, Payment("COMPLETED"), false, mailOk).1 ==
              CaptureOk(Payment("COMPLETED"))
  {
  }

  /** A mail failure never changes the reply or the purchases table. */
  lemma MailNeverChangesReply(l: Ledger, route: Route, userId: nat, email: string, req: CaptureRequest,
                              gateway: CaptureOutcome, insertFails: bool)
    ensures Capture(l, route, userId, email, req, gateway, insertFails, true).1 ==
            Capture(l, route, userId, email, req, gateway, insertFails, false).1
    ensures Capture(l, route, userId, email, req, gateway, insertFails, true).0.purchases ==
            Capture(l, route, userId, email, req, gateway, insertFails, false).0.purchases
  {
  }

  /** A replayed capture of a stored order, whatever the gateway says and whoever sends
      it, fails and leaves the stored row as it was: never two rows for one order. */
  lemma ReplayedCaptureNeverDuplicates(l: Ledger, route: Route, route': Route, u: nat, u': nat, e: string, e': string,
                                       req: CaptureRequest, req': CaptureRequest, mailOk: bool,
                                       g': CaptureOutcome, insertFails': bool, mailOk': bool)
    requires Capture(l, route, u, e, req, Payment("COMPLETED"), false, mailOk).1.CaptureOk?
    requires req'.orderId == req.orderId
    ensures var l1 := Capture(l, route, u, e, req, Payment("COMPLETED"), false, mailOk).0;
      var r2 := Capture(l1, route', u', e', req', g', insertFails', mailOk');
      !r2.1.CaptureOk? && r2.0 == l1 && |r2.0.purchases| == |l.purchases| + 1 &&
      r2.0.purchases[req.orderId] == PurchaseRow(route, u, req)
  {
  }

  /** The purchases table and the confirmations sent. */
  class PurchaseLedger {
    var purchases: map<string, Purchase>
    var sent: seq<Confirmation>

    function Snapshot(): Ledger
      reads this
    {
      Ledger(purchases, sent)
    }

    constructor ()
      ensures Snapshot() == Ledger(map[], [])
    {
      purchases := map[];
      sent := [];
    }

    /** `POST /capture-order`. */
    method CaptureOrder(route: Route, userId: nat, email: string, req: CaptureRequest,
                        gateway: CaptureOutcome, insertFails: bool, mailOk: bool) returns (reply: CaptureReply)
      modifies this
      ensures (Snapshot(), reply) == Capture(old(Snapshot()), route, userId, email, req, gateway, insertFails, mailOk)
    {
      if gateway.CaptureError? {
        return CaptureFailed;
      }
      if gateway.status != "COMPLETED" {
        return NotCompleted;
      }
      // the UNIQUE constraint on the order id refuses a second row
      if insertFails || req.orderId in purchases {
        return CaptureFailed;
      }
      purchases := purchases[req.orderId := PurchaseRow(route, userId, req)];
      // fire and forget: the outcome of the mail is not awaited
      if mailOk {
        sent := sent + [Confirmation(email, req.packageName, req.packagePrice, req.consultationTime, req.orderId)];
      }
      reply := CaptureOk(gateway);
    }
  }
}
