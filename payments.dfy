/**
 * `verify_payment_and_create_order`: authorise the caller, check the
 * gateway's payment signature, and only then write a PAID order document
 * into the `orders` collection.
 */
module Payments {
  import opened Wrappers
  import opened Firestore

  /**
   * The gateway's signature check over the order id, payment id and
   * signature supplied by the client: true when it passes, false when the
   * library raises (a forged signature, or fields of the wrong type).
   */
  type SignatureCheck = (Value, Value, Value) -> bool

  /** The handler's responses. */
  datatype VerifyOutcome =
    | Unauthorized
    | VerificationFailed
    | ServerError(message: string)
    | OrderPlaced(orderId: string)

  /** The HTTP status of each response. */
  function Status(o: VerifyOutcome): (r: int)
    ensures r == 401 <==> o.Unauthorized?
    ensures r == 400 <==> o.VerificationFailed?
    ensures r == 500 <==> o.ServerError?
    ensures r == 201 <==> o.OrderPlaced?
  {
    match o
    case Unauthorized => 401
    case VerificationFailed => 400
    case ServerError(_) => 500
    case OrderPlaced(_) => 201
  }

  /** The `message` of each response; a 500 carries the exception's text. */
  function Message(o: VerifyOutcome): (m: string)
    ensures o.Unauthorized? ==> m == "Unauthorized"
    ensures o.VerificationFailed? ==> m == "Payment verification failed"
    ensures o.ServerError? ==> m == o.message
    ensures o.OrderPlaced? ==> m == "Order placed successfully"
  {
    match o
    case Unauthorized => "Unauthorized"
    case VerificationFailed => "Payment verification failed"
    case ServerError(m) => m
    case OrderPlaced(_) => "Order placed successfully"
  }

  /** `str(KeyError(key))`: the key in single quotes. */
  function KeyErrorText(key: string): (t: string)
    ensures |t| == |key| + 2 && t[0] == '\'' && t[|t| - 1] == '\'' && t[1..|t| - 1] == key
  {
    "'" + key + "'"
  }

  /** The first of three keys, in order, that `d` lacks: the one whose `d[key]` raises. */
  function FirstMissing(d: Doc, a: string, b: string, c: string): (m: Option<string>)
    ensures m.None? <==> a in d && b in d && c in d
    ensures m.Some? ==> m.value !in d
    ensures a !in d ==> m == Some(a)
    ensures a in d && b !in d ==> m == Some(b)
    ensures m.Some? ==> m.value == a || m.value == b || m.value == c
  {
    if a !in d then Some(a) else if b !in d then Some(b) else if c !in d then Some(c) else None
  }

  /** The first signature field missing from the client's data, read in the source's order. */
  function MissingSignatureField(pd: Doc): Option<string>
  {
    FirstMissing(pd, "razorpay_order_id", "razorpay_payment_id", "razorpay_signature")
  }

  /** The first further order field missing from the client's data, read in the source's order. */
  function MissingOrderField(pd: Doc): Option<string>
  {
    FirstMissing(pd, "stall_id", "items", "amount")
  }

  predicate HasSignatureFields(pd: Doc)
  {
    "razorpay_order_id" in pd && "razorpay_payment_id" in pd && "razorpay_signature" in pd
  }

  predicate HasOrderFields(pd: Doc)
  {
    "stall_id" in pd && "items" in pd && "amount" in pd
  }

  /** The signature check applied to the client's three fields. */
  predicate SignatureHolds(pd: Doc, sigValid: SignatureCheck)
    requires HasSignatureFields(pd)
  {
    sigValid(pd["razorpay_order_id"], pd["razorpay_payment_id"], pd["razorpay_signature"])
  }

  /**
   * The order document. Its owner is the uid resolved from the token; the
   * stall, items, amount and gateway references are the client's fields
   * copied unchanged; the status is always PAID.
   */
  function OrderPayload(uid: string, paymentData: Doc): (p: Doc)
    requires HasSignatureFields(paymentData) && HasOrderFields(paymentData)
    ensures p.Keys == {"user_id", "stall_id", "items", "total_amount", "razorpay_order_id",
                       "razorpay_payment_id", "status", "created_at", "updated_at"}
    ensures p["status"] == Str("PAID")
    ensures p["user_id"] == Str(uid)
    ensures p["stall_id"] == paymentData["stall_id"]
    ensures p["items"] == paymentData["items"]
    ensures p["total_amount"] == paymentData["amount"]
    ensures p["razorpay_order_id"] == paymentData["razorpay_order_id"]
    ensures p["razorpay_payment_id"] == paymentData["razorpay_payment_id"]
    ensures p["created_at"] == ServerTimestamp && p["updated_at"] == ServerTimestamp
  {
    map[
      "user_id" := Str(uid),
      "stall_id" := paymentData["stall_id"],
      "items" := paymentData["items"],
      "total_amount" := paymentData["amount"],
      "razorpay_order_id" := paymentData["razorpay_order_id"],
      "razorpay_payment_id" := paymentData["razorpay_payment_id"],
      "status" := Str("PAID"),
      "created_at" := ServerTimestamp,
      "updated_at" := ServerTimestamp
    ]
  }

  /**
   * Whatever else the client sends (a `user_id` or `status` of its own, say)
   * cannot reach the order document: two payloads that agree on the five
   * copied fields give the same document.
   */
  lemma PayloadIgnoresOtherClientFields(uid: string, pd1: Doc, pd2: Doc)
    requires HasSignatureFields(pd1) && HasOrderFields(pd1)
    requires HasSignatureFields(pd2) && HasOrderFields(pd2)
    requires pd1["razorpay_order_id"] == pd2["razorpay_order_id"]
    requires pd1["razorpay_payment_id"] == pd2["razorpay_payment_id"]
    requires pd1["stall_id"] == pd2["stall_id"] && pd1["items"] == pd2["items"] && pd1["amount"] == pd2["amount"]
    ensures OrderPayload(uid, pd1) == OrderPayload(uid, pd2)
  {
  }

  /** Where the gate sequence ends: a response, or a document to write. */
  datatype Gate = Reject(outcome: VerifyOutcome) | Record(payload: Doc)

  /**
   * The intended gate sequence: the caller is authorised, the three
   * signature fields are present, the signature verifies, the order fields
   * are present, and only then is an order document produced.
   */
  function Decide(paymentData: Doc, user: UserLookup, sigValid: SignatureCheck): (g: Gate)
    ensures !Authorised(user) ==> g == Reject(Unauthorized)
    ensures Authorised(user) && HasSignatureFields(paymentData) && !SignatureHolds(paymentData, sigValid) ==>
              g == Reject(VerificationFailed)
    ensures g.Record? <==>
              Authorised(user) && HasSignatureFields(paymentData) && SignatureHolds(paymentData, sigValid) &&
              HasOrderFields(paymentData)
    ensures Authorised(user) && MissingSignatureField(paymentData).Some? ==>
              g == Reject(ServerError(KeyErrorText(MissingSignatureField(paymentData).value)))
    ensures Authorised(user) && HasSignatureFields(paymentData) && SignatureHolds(paymentData, sigValid) &&
            MissingOrderField(paymentData).Some? ==>
              g == Reject(ServerError(KeyErrorText(MissingOrderField(paymentData).value)))
    ensures g.Record? ==> g.payload == OrderPayload(Uid(user), paymentData)
    ensures g.Reject? && g.outcome.ServerError? ==>
              exists k :: k !in paymentData && g.outcome.message == KeyErrorText(k)
  {
    if !Authorised(user) then Reject(Unauthorized)
    else match MissingSignatureField(paymentData)
      case Some(k) => Reject(ServerError(KeyErrorText(k)))
      case None =>
        if !SignatureHolds(paymentData, sigValid) then Reject(VerificationFailed)
        else match MissingOrderField(paymentData)
          case Some(k) => Reject(ServerError(KeyErrorText(k)))
          case None => Record(OrderPayload(Uid(user), paymentData))
  }

  /** `str(NameError)` for the undefined `firestore` module. */
  const NameErrorText: string := "name 'firestore' is not defined"

  /**
   * The gate sequence as the source is written: building the payload reads
   * `firestore.SERVER_TIMESTAMP`, and `firestore` is never imported, so
   * every path that reaches the payload raises NameError, answers 500 and
   * writes nothing.
   */
  function DecideAsWritten(paymentData: Doc, user: UserLookup, sigValid: SignatureCheck): (g: Gate)
    ensures !g.Record?
    ensures Decide(paymentData, user, sigValid).Record? ==> g == Reject(ServerError(NameErrorText))
    ensures Decide(paymentData, user, sigValid).Reject? ==> g == Decide(paymentData, user, sigValid)
  {
    match Decide(paymentData, user, sigValid)
    case Record(_) => Reject(ServerError(NameErrorText))
    case Reject(o) => Reject(o)
  }

  /** A genuine, fully formed payment that the written code loses. */
  lemma AsWrittenLosesVerifiedPayment()
    ensures var pd := map["razorpay_order_id" := Str("order_1"), "razorpay_payment_id" := Str("pay_1"),
                          "razorpay_signature" := Str("sig"), "stall_id" := Str("s1"),
                          "items" := Arr([]), "amount" := Num(300)];
            var user: UserLookup := Some((map["college_id" := Str("c1")], "uid-1"));
            Decide(pd, user, (o, p, s) => true).Record? &&
            DecideAsWritten(pd, user, (o, p, s) => true) == Reject(ServerError(NameErrorText))
  {
    var pd := map["razorpay_order_id" := Str("order_1"), "razorpay_payment_id" := Str("pay_1"),
                  "razorpay_signature" := Str("sig"), "stall_id" := Str("s1"),
                  "items" := Arr([]), "amount" := Num(300)];
    var user: UserLookup := Some((map["college_id" := Str("c1")], "uid-1"));
    assert "college_id" in user.value.0;
    assert Authorised(user);
    assert HasSignatureFields(pd) && HasOrderFields(pd);
  }

  /** The response for a gate that let the order through. */
  function Placed(g: Gate, newId: string): VerifyOutcome
  {
    match g
    case Reject(o) => o
    case Record(_) => OrderPlaced(newId)
  }

  /** The `orders` collection: documents keyed by their generated id. */
  class OrdersCollection {
    var documents: map<string, Doc>

    constructor ()
      ensures documents == map[]
    {
      documents := map[];
    }

    /** `db.collection("orders").document(newId).set(payload)`: create or overwrite. */
    method Set(newId: string, payload: Doc)
      modifies this
      ensures documents == old(documents)[newId := payload]
    {
      documents := documents[newId := payload];
    }

    /**
     * The handler, with the intended behaviour (the payload's timestamps
     * are the SERVER_TIMESTAMP sentinel). `newId` is the id the store
     * generates for the new document. The collection changes only when
     * every gate passes, and then by exactly one PAID document under
     * `newId`.
     */
    method VerifyPaymentAndCreateOrder(paymentData: Doc, user: UserLookup,
                                       sigValid: SignatureCheck, newId: string)
      returns (outcome: VerifyOutcome)
      modifies this
      ensures outcome == Placed(Decide(paymentData, user, sigValid), newId)
      ensures outcome.OrderPlaced? <==> Decide(paymentData, user, sigValid).Record?
      ensures !outcome.OrderPlaced? ==> documents == old(documents)
      ensures outcome.OrderPlaced? ==>
                outcome.orderId == newId &&
                documents == old(documents)[newId := OrderPayload(Uid(user), paymentData)] &&
                documents[newId]["status"] == Str("PAID") &&
                documents[newId]["user_id"] == Str(Uid(user))
    {
      if !Authorised(user) {
        return Unauthorized;
      }
      var uid := Uid(user);
      var missing := MissingSignatureField(paymentData);
      if missing.Some? {
        return ServerError(KeyErrorText(missing.value));
      }
      var orderId := paymentData["razorpay_order_id"];
      var paymentId := paymentData["razorpay_payment_id"];
      var signature := paymentData["razorpay_signature"];
      if !sigValid(orderId, paymentId, signature) {
        return VerificationFailed;
      }
      missing := MissingOrderField(paymentData);
      if missing.Some? {
        return ServerError(KeyErrorText(missing.value));
      }
      var payload := OrderPayload(uid, paymentData);
      Set(newId, payload);
      outcome := OrderPlaced(newId);
    }
  }
}
