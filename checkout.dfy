/**
 * `create_payment_order`: price the cart against the stall's menu, reject
 * a stale, unavailable or zero-value cart, and only then ask the payment
 * gateway for an order carrying the amount in paise.
 */
module Checkout {
  import opened Wrappers
  import opened Firestore
  import Text

  /** One entry of the request's `items`: a menu item id and a quantity. */
  datatype CartLine = CartLine(itemId: string, quantity: int)

  /** The request body: the stall ordered from and the cart, in cart order. */
  datatype CreateOrder = CreateOrder(stallId: string, items: seq<CartLine>)

  /** Why a cart line ends the pricing loop. */
  datatype LineFault =
    | ItemMissing                      // no document under the stall's menu_items
    | OutOfStock(name: Option<Value>)  // `is_available` is exactly False; carries `get('name')`
    | PriceNotNumeric(price: Value)    // `price * quantity` or the `+=` raises TypeError

  /** What one cart line contributes to the total, or why it stops the loop. */
  datatype LineCheck = Amount(value: int) | Fault(fault: LineFault)

  /** The running total after a whole cart, or the first line that stopped it. */
  datatype CartTotal = Total(amount: int) | Stopped(at: nat, fault: LineFault)

  /**
   * `item_data.get('price', 0)` as an operand of `* quantity` and `+=`:
   * an absent price is 0, a bool counts as 0 or 1 (Python's bool is an
   * int), and any other kind of value makes the arithmetic raise.
   */
  function PriceOf(item: Doc): (p: Option<int>)
    ensures "price" !in item ==> p == Some(0)
    ensures "price" in item && item["price"].Num? ==> p == Some(item["price"].n)
    ensures "price" in item && item["price"].Bool? ==> p == Some(if item["price"].b then 1 else 0)
    ensures p.None? <==> "price" in item && !item["price"].Num? && !item["price"].Bool?
  {
    if "price" !in item then Some(0)
    else match item["price"]
      case Num(n) => Some(n)
      case Bool(b) => Some(if b then 1 else 0)
      case _ => None
  }

  /** `item_data.get('is_available') is False`: only a stored False matches. */
  predicate FlaggedUnavailable(item: Doc)
    ensures FlaggedUnavailable(item) <==> "is_available" in item && item["is_available"] == Bool(false)
  {
    Lookup(item, "is_available") == Some(Bool(false))
  }

  /** One iteration of the pricing loop. */
  function CheckLine(line: CartLine, menu: map<string, Doc>): (r: LineCheck)
    ensures r == Fault(ItemMissing) <==> line.itemId !in menu
    ensures (r.Fault? && r.fault.OutOfStock?) <==>
              line.itemId in menu && FlaggedUnavailable(menu[line.itemId])
    ensures r.Fault? && r.fault.OutOfStock? ==> r.fault.name == Lookup(menu[line.itemId], "name")
    ensures r.Fault? && r.fault.PriceNotNumeric? ==>
              line.itemId in menu && "price" in menu[line.itemId] &&
              r.fault.price == menu[line.itemId]["price"] && PriceOf(menu[line.itemId]).None?
    ensures r.Amount? <==> LineOk(line, menu)
    ensures r.Amount? ==> r.value == UnitPrice(line, menu) * line.quantity
  {
    if line.itemId !in menu then Fault(ItemMissing)
    else
      var item := menu[line.itemId];
      if FlaggedUnavailable(item) then Fault(OutOfStock(Lookup(item, "name")))
      else match PriceOf(item)
        case None => Fault(PriceNotNumeric(item["price"]))
        case Some(p) => Amount(p * line.quantity)
  }

  /**
   * The pricing loop as a left fold over the cart: it stops at the first
   * line that fails and otherwise accumulates each line's amount.
   */
  function CartSum(cart: seq<CartLine>, menu: map<string, Doc>): (r: CartTotal)
    ensures r.Stopped? ==> r.at < |cart| && CheckLine(cart[r.at], menu) == Fault(r.fault)
    decreases |cart|
  {
    if cart == [] then Total(0)
    else match CartSum(cart[..|cart| - 1], menu)
      case Stopped(i, f) => Stopped(i, f)
      case Total(t) =>
        match CheckLine(cart[|cart| - 1], menu)
        case Fault(f) => Stopped(|cart| - 1, f)
        case Amount(a) => Total(t + a)
  }

  // ---------------------------------------------------------------------
  // An independent reference for the total: the sum of price x quantity.

  /** A line the loop accepts: the item exists, is not flagged, has a numeric price. */
  predicate LineOk(line: CartLine, menu: map<string, Doc>)
  {
    line.itemId in menu && !FlaggedUnavailable(menu[line.itemId]) && PriceOf(menu[line.itemId]).Some?
  }

  predicate AllOk(cart: seq<CartLine>, menu: map<string, Doc>)
  {
    forall i :: 0 <= i < |cart| ==> LineOk(cart[i], menu)
  }

  /** The unit price of an accepted line's item; an absent price is 0. */
  function UnitPrice(line: CartLine, menu: map<string, Doc>): int
    requires LineOk(line, menu)
  {
    PriceOf(menu[line.itemId]).value
  }

  /** Sum of unit price x quantity over the cart, from the front. */
  function Gross(cart: seq<CartLine>, menu: map<string, Doc>): int
    requires AllOk(cart, menu)
  {
    if cart == [] then 0 else UnitPrice(cart[0], menu) * cart[0].quantity + Gross(cart[1..], menu)
  }

  lemma {:induction false} GrossSnoc(cart: seq<CartLine>, line: CartLine, menu: map<string, Doc>)
    requires AllOk(cart + [line], menu)
    ensures AllOk(cart, menu) && LineOk(line, menu)
    ensures Gross(cart + [line], menu) == Gross(cart, menu) + UnitPrice(line, menu) * line.quantity
    decreases |cart|
  {
    assert forall i :: 0 <= i < |cart| ==> (cart + [line])[i] == cart[i];
    assert (cart + [line])[|cart|] == line;
    if cart != [] {
      assert (cart + [line])[1..] == cart[1..] + [line];
      GrossSnoc(cart[1..], line, menu);
    }
  }

  /**
   * The loop completes exactly when every line is accepted, and then its
   * total is the sum of unit price x quantity.
   */
  lemma {:induction false} CartSumIsGross(cart: seq<CartLine>, menu: map<string, Doc>)
    ensures CartSum(cart, menu).Total? <==> AllOk(cart, menu)
    ensures AllOk(cart, menu) ==> CartSum(cart, menu).amount == Gross(cart, menu)
    decreases |cart|
  {
    if cart != [] {
      var init, last := cart[..|cart| - 1], cart[|cart| - 1];
      assert cart == init + [last];
      CartSumIsGross(init, menu);
      assert forall i :: 0 <= i < |init| ==> cart[i] == init[i];
      if AllOk(cart, menu) {
        assert LineOk(cart[|cart| - 1], menu);
        GrossSnoc(init, last, menu);
      } else if AllOk(init, menu) {
        assert !LineOk(last, menu);
      }
    }
  }

  /**
   * The loop stops at line i exactly when line i fails and every line
   * before it was accepted: it is the first failing line in cart order.
   */
  lemma {:induction false} CartSumStopsAtFirstFault(cart: seq<CartLine>, menu: map<string, Doc>, i: nat, f: LineFault)
    ensures CartSum(cart, menu) == Stopped(i, f) <==>
              i < |cart| && CheckLine(cart[i], menu) == Fault(f) &&
              forall j :: 0 <= j < i ==> CheckLine(cart[j], menu).Amount?
    decreases |cart|
  {
    if cart != [] {
      var init := cart[..|cart| - 1];
      CartSumStopsAtFirstFault(init, menu, i, f);
      CartSumIsGross(init, menu);
      assert forall j :: 0 <= j < |init| ==> cart[j] == init[j];
      if i == |cart| - 1 && CartSum(init, menu).Stopped? {
        var k := CartSum(init, menu).at;
        CartSumStopsAtFirstFault(init, menu, k, CartSum(init, menu).fault);
        assert CheckLine(cart[k], menu).Fault?;
      }
      if i == |cart| - 1 && CartSum(init, menu).Total? {
        assert AllOk(init, menu);
        assert forall j :: 0 <= j < i ==> LineOk(cart[j], menu);
      }
    }
  }

  /** Once the loop has stopped, lines after the stopping one are never examined. */
  lemma {:induction false} LaterLinesNotExamined(cart: seq<CartLine>, rest: seq<CartLine>, menu: map<string, Doc>)
    requires CartSum(cart, menu).Stopped?
    ensures CartSum(cart + rest, menu) == CartSum(cart, menu)
    decreases |rest|
  {
    if rest != [] {
      var init := rest[..|rest| - 1];
      LaterLinesNotExamined(cart, init, menu);
      assert (cart + rest)[..|cart + rest| - 1] == cart + init;
    } else {
      assert cart + rest == cart;
    }
  }

  // ---------------------------------------------------------------------
  // The gateway request and the handler's outcomes.

  /** The create-order request sent to the payment gateway. */
  datatype GatewayRequest = GatewayRequest(amount: int, currency: string, receipt: string, notes: Doc)

  /** What the gateway's create-order call yields: the order it created, or an exception's text. */
  datatype GatewayReply =
    | Created(id: Value, amount: Value, currency: Value)
    | Failed(detail: string)

  /**
   * `f"order_{user_uid[:5]}_{timestamp}"`: the receipt starts with `order_`,
   * then at most five characters of the uid, then `_`, then the request
   * time in whole seconds, which can be read back from the receipt.
   */
  function Receipt(uid: string, now: int): (r: string)
    ensures |r| > 6 + |Text.Prefix(uid, 5)| && r[..6] == "order_"
    ensures r[6..6 + |Text.Prefix(uid, 5)|] == Text.Prefix(uid, 5)
    ensures r[6 + |Text.Prefix(uid, 5)|] == '_'
    ensures r[7 + |Text.Prefix(uid, 5)|..] == Text.IntToDecimal(now)
    ensures Text.ParseInt(r[7 + |Text.Prefix(uid, 5)|..]) == now
  {
    var p, d := Text.Prefix(uid, 5), Text.IntToDecimal(now);
    Text.IntToDecimalRoundTrip(now);
    var r := "order_" + p + "_" + d;
    assert |r| == 7 + |p| + |d|;
    assert r[..6] == "order_";
    assert r[6..6 + |p|] == p;
    assert r[6 + |p|] == '_';
    assert r[7 + |p|..] == d;
    r
  }

  /**
   * The request built once the total is known: the amount in paise, rupees
   * as the currency, and notes carrying exactly the stall, the user's uid
   * and the user's college for later correlation.
   */
  function RequestFor(total: int, stallId: string, user: UserLookup, now: int): (q: GatewayRequest)
    requires user.Some?
    ensures q.amount == 100 * total
    ensures q.currency == "INR"
    ensures q.receipt == Receipt(Uid(user), now)
    ensures q.notes.Keys == {"stall_id", "user_uid", "college_id"}
    ensures q.notes["stall_id"] == Str(stallId)
    ensures q.notes["user_uid"] == Str(Uid(user))
    ensures q.notes["college_id"] == CollegeOf(user)
  {
    GatewayRequest(
      100 * total,
      "INR",
      Receipt(Uid(user), now),
      map["stall_id" := Str(stallId), "user_uid" := Str(Uid(user)), "college_id" := CollegeOf(user)])
  }

  /** The handler's responses. */
  datatype CheckoutOutcome =
    | InvalidToken
    | ItemsNoLongerExist
    | ItemOutOfStock(name: Option<Value>)
    | InvalidTotal
    | PaymentError(cause: ErrorCause)
    | OrderCreated(id: Value, amount: Value, currency: Value, keyId: Value)

  /** What raised inside the handler's `try`. */
  datatype ErrorCause = PriceTypeError(price: Value) | GatewayError(detail: string)

  /** The HTTP status of each response: 401, 400 for a rejected cart, 500, or 200. */
  function Status(o: CheckoutOutcome): (r: int)
    ensures r == 401 <==> o.InvalidToken?
    ensures r == 400 <==> o.ItemsNoLongerExist? || o.ItemOutOfStock? || o.InvalidTotal?
    ensures r == 500 <==> o.PaymentError?
    ensures r == 200 <==> o.OrderCreated?
  {
    match o
    case InvalidToken => 401
    case ItemsNoLongerExist => 400
    case ItemOutOfStock(_) => 400
    case InvalidTotal => 400
    case PaymentError(_) => 500
    case OrderCreated(_, _, _, _) => 200
  }

  /** Python's `str()` of a value used as the item name in the out-of-stock message. */
  function Display(v: Option<Value>): (r: string)
    ensures v == None || v == Some(Null) ==> r == "None"
    ensures v.Some? && v.value.Str? ==> r == v.value.s
    ensures v.Some? && v.value.Bool? ==> r == if v.value.b then "True" else "False"
    ensures v.Some? && v.value.Num? ==> r == Text.IntToDecimal(v.value.n) && Text.ParseInt(r) == v.value.n
  {
    match v
    case None => "None"
    case Some(Null) => "None"
    case Some(Str(s)) => s
    case Some(Bool(b)) => if b then "True" else "False"
    case Some(Num(n)) => Text.IntToDecimalRoundTrip(n); Text.IntToDecimal(n)
    case Some(_) => "<value>"
  }

  /**
   * The TypeError text: a string or list price survives `* quantity`
   * (repetition) and fails at `+=`; any other kind fails at `*`.
   */
  function TypeErrorText(price: Value): (t: string)
    ensures price.Str? || price.Arr? ==>
              t == "unsupported operand type(s) for +=: 'int' and '" + TypeName(price) + "'"
    ensures !price.Str? && !price.Arr? ==>
              t == "unsupported operand type(s) for *: '" + TypeName(price) + "' and 'int'"
  {
    if price.Str? || price.Arr? then "unsupported operand type(s) for +=: 'int' and '" + TypeName(price) + "'"
    else "unsupported operand type(s) for *: '" + TypeName(price) + "' and 'int'"
  }

  /** The `message` of each response. */
  function Message(o: CheckoutOutcome): (m: string)
    ensures o.InvalidToken? ==> m == "Invalid or expired token."
    ensures o.ItemsNoLongerExist? ==> m == "One or more items in your cart no longer exist."
    ensures o.ItemOutOfStock? ==> m == "Sorry, " + Display(o.name) + " is currently out of stock."
    ensures o.InvalidTotal? ==> m == "Invalid order total (0). Check item availability."
    ensures o.PaymentError? ==> |m| >= 15 && m[..15] == "Payment Error: "
    ensures o.PaymentError? && o.cause.GatewayError? ==> m[15..] == o.cause.detail
    ensures o.PaymentError? && o.cause.PriceTypeError? ==> m[15..] == TypeErrorText(o.cause.price)
    ensures o.OrderCreated? ==> m == "Order created successfully"
  {
    match o
    case InvalidToken => "Invalid or expired token."
    case ItemsNoLongerExist => "One or more items in your cart no longer exist."
    case ItemOutOfStock(name) => "Sorry, " + Display(name) + " is currently out of stock."
    case InvalidTotal => "Invalid order total (0). Check item availability."
    case PaymentError(PriceTypeError(p)) => "Payment Error: " + TypeErrorText(p)
    case PaymentError(GatewayError(d)) => "Payment Error: " + d
    case OrderCreated(_, _, _, _) => "Order created successfully"
  }

  /** The response for a cart line that stopped the loop. */
  function FaultOutcome(f: LineFault): (o: CheckoutOutcome)
    ensures f.ItemMissing? ==> o == ItemsNoLongerExist
    ensures f.OutOfStock? ==> o == ItemOutOfStock(f.name)
    ensures f.PriceNotNumeric? ==> o == PaymentError(PriceTypeError(f.price))
    ensures Status(o) == (if f.PriceNotNumeric? then 500 else 400)
  {
    match f
    case ItemMissing => ItemsNoLongerExist
    case OutOfStock(name) => ItemOutOfStock(name)
    case PriceNotNumeric(p) => PaymentError(PriceTypeError(p))
  }

  /** The response once the gateway has answered. */
  function ReplyOutcome(reply: GatewayReply, keyId: Value): (o: CheckoutOutcome)
    ensures reply.Created? ==> o == OrderCreated(reply.id, reply.amount, reply.currency, keyId)
    ensures reply.Failed? ==> o == PaymentError(GatewayError(reply.detail))
  {
    match reply
    case Created(id, amount, currency) => OrderCreated(id, amount, currency, keyId)
    case Failed(d) => PaymentError(GatewayError(d))
  }

  /**
   * The handler. `menu` holds the stall's menu_items documents as the reads
   * see them, `now` the request time in whole seconds, `keyId` the public
   * key from the environment and `reply` what the gateway answers if asked.
   * `sent` is the request sent to the gateway, if one was sent.
   */
  method CreatePaymentOrder(order: CreateOrder, user: UserLookup, menu: map<string, Doc>,
                            now: int, keyId: Value, reply: GatewayReply)
    returns (outcome: CheckoutOutcome, sent: Option<GatewayRequest>)
    ensures !Authorised(user) ==> outcome == InvalidToken && sent == None
    ensures Authorised(user) && CartSum(order.items, menu).Stopped? ==>
              sent == None && outcome == FaultOutcome(CartSum(order.items, menu).fault)
    ensures Authorised(user) && CartSum(order.items, menu).Total? && CartSum(order.items, menu).amount <= 0 ==>
              sent == None && outcome == InvalidTotal
    ensures sent.Some? <==> Authorised(user) && AllOk(order.items, menu) && Gross(order.items, menu) > 0
    ensures sent.Some? ==> sent.value == RequestFor(Gross(order.items, menu), order.stallId, user, now) &&
                           outcome == ReplyOutcome(reply, keyId)
  {
    sent := None;
    if !Authorised(user) {
      outcome := InvalidToken;
      return;
    }
    CartSumIsGross(order.items, menu);
    var cart := order.items;
    var total := 0;
    var i := 0;
    while i < |cart|
      invariant 0 <= i <= |cart|
      invariant CartSum(cart[..i], menu) == Total(total)
    {
      var line := cart[i];
      assert cart[..i + 1][..i] == cart[..i];
      if line.itemId in menu {
        var item := menu[line.itemId];
        if FlaggedUnavailable(item) {
          outcome := ItemOutOfStock(Lookup(item, "name"));
          StoppedAt(cart, i, menu);
          return;
        }
        var price := PriceOf(item);
        if price.None? {
          outcome := PaymentError(PriceTypeError(item["price"]));
          StoppedAt(cart, i, menu);
          return;
        }
        total := total + price.value * line.quantity;
      } else {
        outcome := ItemsNoLongerExist;
        StoppedAt(cart, i, menu);
        return;
      }
      i := i + 1;
    }
    assert cart[..i] == cart;
    if total <= 0 {
      outcome := InvalidTotal;
      return;
    }
    var request := RequestFor(total, order.stallId, user, now);
    sent := Some(request);
    outcome := ReplyOutcome(reply, keyId);
  }

  /** A fault at line i, after i accepted lines, decides the whole cart. */
  lemma StoppedAt(cart: seq<CartLine>, i: nat, menu: map<string, Doc>)
    requires i < |cart| && CartSum(cart[..i], menu).Total? && CheckLine(cart[i], menu).Fault?
    ensures CartSum(cart, menu) == Stopped(i, CheckLine(cart[i], menu).fault)
  {
    assert cart[..i + 1][..i] == cart[..i];
    LaterLinesNotExamined(cart[..i + 1], cart[i + 1..], menu);
    assert cart[..i + 1] + cart[i + 1..] == cart;
  }
}
