# Food-ordering backend: checkout, payment recording and menu listing

A Dafny model of the user-facing order workflow of a multi-college food-ordering
backend (`app/user.py`):

- **Checkout** (`create_payment_order`). The handler walks the cart in order against
  the stall's menu items. It stops at the first item that no longer exists, or at
  the first one whose `is_available` is stored as exactly `False`. Otherwise it adds
  up price × quantity, rejects a total that is not positive, and only then sends
  the payment gateway (Razorpay) a create-order request. That request carries the
  amount in paise, currency `INR`, a receipt and correlation notes.
- **Verify-then-record** (`verify_payment_and_create_order`). The caller must resolve
  to a user (401 otherwise). A missing signature or order field raises KeyError
  and gives a 500 naming the key. A signature that fails to verify gives a 400.
  Only when all of these pass is a `PAID` order document, owned by the token's
  uid, written to the `orders` collection.
- **Menu listing** (`get_user_menu`, `serialize_firestore_data`). The handler lists
  the college's active, verified stalls with their available items. Each item
  carries its document id as `item_id`, its top-level datetimes are rendered as
  ISO text, and its `created_at`/`updated_at` keys are removed. A stall appears
  only when it has at least one item to show. A response that JSON cannot
  encode (a datetime nested in a list or map, say) gives a 500 whose message
  is the encoder's "Object of type ... is not JSON serializable".

Modules: `Wrappers` (Option), `Firestore` (document values, and the outcome of
resolving a token to a user), `Text` (Python's `s[:n]` and integer rendering),
`Checkout`, `Payments` (with the `OrdersCollection` class holding the orders
collection) and `Menu`.

External services become inputs:
- Token verification and profile lookup (`get_user_details`, app/user.py:17-29)
  become a `UserLookup = Option<(profile, uid)>`.
- The Firestore reads become given maps and sequences of documents.
- The Razorpay signature check becomes a function-typed parameter `sigValid`.
- The gateway's create-order call becomes a given `GatewayReply`. The handler
  returns the request it sent (`sent`), so "the gateway was never called" reads
  `sent == None`.
- The request time becomes `now`, in whole seconds. `os.environ.get("RAZORPAY_KEY_ID")`
  becomes `keyId`. The id that Firestore generates for a new order document becomes `newId`.

HTTP responses are tagged datatypes, each with `Status` and `Message` functions
giving the status code and the message text (the menu listing has no message,
so `Menu.Message` gives an `Option`).

Python details the model keeps:
- `if not user_data` also rejects an existing but empty profile, since an empty dict is falsy.
- `get('price', 0)` makes an absent price worth 0, and a bool price counts as 0 or 1.
- Any other kind of price makes `*` or `+=` raise TypeError, which the handler turns into a 500 "Payment Error".
- A missing field of the client's payment data raises KeyError, which the handler turns into a 500 with the key as its message, checked in the order the source reads the fields.

Three things one might expect of a payment backend, and what the code does instead:
- Recording an order is **not** idempotent. Each call writes a new document
  under a freshly generated id and never looks for an existing order with the
  same `razorpay_order_id`.
- The stored `total_amount` is the client's `amount`, copied unchanged. It is not
  recomputed from the menu.
- A missing proof field is a 500 (KeyError), not a separate malformed-proof error.
  Empty fields are not rejected before the signature check.

## Model

| member | source | states |
|---|---|---|
| Firestore.Authorised | app/user.py:41-43 | a caller passes `if not user_data` only when a user was found, and never when the profile is an empty dictionary |
| Firestore.CollegeOf | app/user.py:88 | the college is the profile's `college_id`, or null when the profile has none |
| Text.Prefix | app/user.py:198 | `uid[:5]` is a prefix of the uid of length min(5, len) |
| Text.IntToDecimal | app/user.py:198 | the f-string rendering: a minus sign exactly for a negative number, then decimal digits without a leading zero |
| Text.IntToDecimalRoundTrip | app/user.py:198 | the timestamp rendered into the receipt parses back to the same integer |
| Checkout.PriceOf | app/user.py:181-182 | an absent price counts 0; a numeric price is its value; the arithmetic fails exactly for a price that is neither a number nor a bool |
| Checkout.FlaggedUnavailable | app/user.py:175 | an item counts as out of stock exactly when it stores `is_available` and that value is the boolean False |
| Checkout.Display | app/user.py:178 | the name in the out-of-stock text: None for an absent or null name, a string as itself, a bool as True/False, an integer in decimal that parses back to it |
| Checkout.CheckLine | app/user.py:170-187 | a line fails as missing iff its item id is not in the menu; as out of stock iff the item's `is_available` is exactly False, carrying the item's name; a non-numeric-price fault carries the item's own stored `price`; it contributes unit price × quantity iff the item exists, is not flagged and has a numeric price |
| Checkout.CartSum | app/user.py:159-187 | the pricing loop as a fold; when it stops, the index is a line of the cart and that line's check failed with the reported fault |
| Checkout.CartSumIsGross | app/user.py:159-187 | the loop completes iff every line is accepted, and its total is then Σ unit price × quantity, an absent price counting 0 |
| Checkout.CartSumStopsAtFirstFault | app/user.py:169-187 | the loop stops at line i with fault f iff line i fails with f and every earlier line is accepted |
| Checkout.LaterLinesNotExamined | app/user.py:176-187 | once a line has stopped the loop, appending any further lines changes nothing |
| Checkout.Receipt | app/user.py:198 | the receipt is `order_`, at most five leading characters of the uid, `_`, then the request time, which can be read back from it |
| Checkout.RequestFor | app/user.py:195-204 | the gateway request has amount 100 × total, currency `INR`, the receipt above, and notes with exactly `stall_id`, `user_uid` and `college_id` from the request stall and the token's user |
| Checkout.CreatePaymentOrder | app/user.py:147-223 | an unresolved user gets 401 and no gateway call; the first failing line decides the response and no gateway call is made; a non-positive total is rejected with no gateway call; the gateway is called iff every line is accepted and Σ price × quantity > 0, with amount 100 × that sum, and its reply decides the response |
| Checkout.Status | app/user.py:150-222 | 401 exactly for an unresolved user; 400 exactly for a missing item, an out-of-stock item or a non-positive total; 500 exactly for a raised error; 200 exactly for a created gateway order |
| Checkout.Message | app/user.py:150-222 | the fixed texts "Invalid or expired token.", "One or more items in your cart no longer exist.", "Sorry, <name> is currently out of stock.", "Invalid order total (0). Check item availability.", "Order created successfully"; every 500 is "Payment Error: " followed by the exception's text |
| Checkout.TypeErrorText | app/user.py:181-182 | a string or list price fails at `+=`, any other non-numeric price fails at `*`, and the text names the offending type |
| Checkout.FaultOutcome | app/user.py:175-187 | a missing item gives "no longer exist", a flagged item gives out-of-stock with its name, both 400; a non-numeric price gives the 500 |
| Checkout.ReplyOutcome | app/user.py:206-223 | a created gateway order is answered with its id, amount, currency and the key id; a failed call with the 500 carrying its text |
| Payments.Status | app/user.py:41-76 | 401 exactly for an unresolved user, 400 exactly for a failed signature, 500 exactly for a raised error, 201 exactly for a placed order |
| Payments.Message | app/user.py:41-76 | the fixed texts "Unauthorized", "Payment verification failed", "Order placed successfully"; a 500 carries the exception's text |
| Payments.KeyErrorText | app/user.py:46-49 | a KeyError's text is the missing key in single quotes |
| Payments.FirstMissing | app/user.py:47-49 | the first absent key in reading order; none iff all three keys are present |
| Payments.OrderPayload | app/user.py:59-69 | the order document has exactly the nine fields; status is `PAID`; `user_id` is the token's uid; stall, items, total and both gateway ids are the client's values unchanged; the timestamps are the server-timestamp sentinel |
| Payments.PayloadIgnoresOtherClientFields | app/user.py:59-69 | client data that agrees on the five copied fields yields the same order document, whatever other fields (a `user_id` or `status` of its own) it carries |
| Payments.Decide | app/user.py:41-71 | an unauthorised caller is rejected with 401 before anything else; an authorised caller missing a signature field gets the 500 naming the first missing one; with all three present, a failing signature gets 400; after a passing signature, a missing order field gets the 500 naming it; an order document results iff the caller is authorised, the signature fields are present and verify, and the order fields are present; every 500 names a missing key |
| Payments.DecideAsWritten | app/user.py:59-71 | as written, no path produces an order document; where the intended flow would record one, the code answers with the NameError |
| Payments.AsWrittenLosesVerifiedPayment | app/user.py:67 | a concrete authorised, correctly signed, complete payment that the intended flow records and the written code rejects with 500 |
| Payments.OrdersCollection.Set | app/user.py:58-71 | the collection afterwards is the old one with the new document under its id |
| Payments.OrdersCollection.VerifyPaymentAndCreateOrder | app/user.py:39-76 | the response follows `Decide`; the collection changes only when the order is placed, and then by exactly the PAID document owned by the token's uid under the new id |
| Menu.SerializeFirestoreData | app/user.py:31-35 | same key set; top-level datetime entries become their ISO text; every other entry is unchanged; no entry is a datetime afterwards |
| Menu.Filter | app/user.py:90-113 | the query result holds exactly the documents of the collection that satisfy the where clauses, and is no longer than it |
| Menu.FilterKeepsOrder | app/user.py:90-113 | the query result keeps the collection's order: a document added at the end is appended to the result exactly when it matches |
| Menu.Status | app/user.py:82-144 | 401 exactly for an unresolved user, 500 exactly for a response that cannot be encoded, 200 exactly for a listing |
| Menu.Message | app/user.py:83-144 | the 401 says "Invalid or expired token."; a 500 carries the exception's text; the listing has no message |
| Firestore.JsonEncodable | app/user.py:132-138 | `json.dumps` refuses a datetime or the sentinel and accepts null, bools, integers and strings |
| Firestore.UnencodableHoldsAtom | app/user.py:132-138 | a value cannot be encoded exactly when a datetime or a sentinel occurs in it at some depth |
| Firestore.NotSerializableText | app/user.py:140-144 | the encoder's TypeError text is "Object of type ", the class name, then " is not JSON serializable" |
| Firestore.EncodeErrorText | app/user.py:132-144 | the text names DatetimeWithNanoseconds when a datetime occurs in the value, and the sentinel's class otherwise |
| Firestore.UnencodableReadNamesDatetime | app/user.py:132-144 | a sentinel-free value that cannot be encoded, which is every such value read from the store, gets the DatetimeWithNanoseconds text |
| Menu.ResponseEncodableParts | app/user.py:132-138 | the response `{"college_id", "stalls"}` encodes exactly when the college id and every stall entry do |
| Menu.EntryFor | app/user.py:103-130 | a stall's entry has its document id, its name or null, and exactly its queried items, shaped, in query order |
| Menu.Entries | app/user.py:100-130 | no more entries than fetched stalls, and no entry with an empty item list |
| Menu.Listing | app/user.py:90-130 | no more entries than stalls in the collection, and every entry shows at least one item |
| Menu.ShapeItem | app/user.py:117-121 | a listed item has the document's keys plus `item_id`, minus `created_at`/`updated_at`; `item_id` is the document id; every other entry is the serialised stored value |
| Menu.GetUserMenu | app/user.py:78-144 | an unresolved user gets 401; otherwise the response is the user's college with the listing of its active, verified stalls in store order, or the 500 carrying the encoder's TypeError text when that response holds a value JSON cannot encode |
| Menu.EntriesMembers | app/user.py:102-130 | a fetched stall has an entry iff the query returns at least one of its items |
| Menu.ListingMembers | app/user.py:90-130 | a stall is listed iff it is active, verified and has at least one available item with `created_at` |
| Menu.EntryItemShape | app/user.py:106-123 | every item of a stall's entry is one of its queried items, shaped: available, `item_id` is its id, no timestamp keys |
| Menu.ListingShape | app/user.py:100-130 | every listed stall is an active, verified stall of the input and shows at least one item; every item it shows is available, has `item_id` and no timestamp keys |
| Menu.ShapedAvailable | app/user.py:109-121 | an item the query returns is still marked available after shaping |

## Left out

- Token verification and the profile read (app/user.py:17-29) are Firebase SDK calls. They are an input `UserLookup`.
- Firestore's server-side ordering (`order_by("created_at")`) is not modelled: the given item sequences are taken to be in that order already. The query's equality filters and the rule that `order_by` drops documents lacking the field are modelled.
- How the document paths resolve is not modelled, including `document(None)` when a profile has no `college_id`. `menu` and `stalls` are the documents already found at those paths.
- The catalog is one snapshot per request: the model does not capture menu items changing between the handler's individual reads.
- The Razorpay signature scheme (HMAC-SHA256 inside the library) is an abstract `sigValid`.
- The gateway's create-order call is a given reply. A reply lacking `id`, `amount` or `currency` is not modelled.
- Prices and quantities are integers, so `int(total_amount * 100)` is an exact multiplication. Floating-point prices and their truncation are not modelled.
- `CartLine.quantity` is any integer. The request schema (`CreateOrderSchema`) is not part of this model.
- Datetimes are represented by the text their `isoformat()` returns. Date formatting itself is not modelled.
- Checkout.Display: a name that is not a string, number, bool or null is shown as a placeholder, where Python would show its `str()`.
- Python dictionaries are modelled as map values. The handlers build them afresh from `to_dict()`, so in-place update and aliasing play no part.
- Exceptions raised by the store or the network (the 500 branches at app/user.py:75-76, 140-144 and 219-223) are modelled only where the model has their cause: a non-numeric price, a missing client field, a gateway failure, the undefined `firestore` name, and a menu response JSON cannot encode.
- Menu.GetUserMenu: when one response holds both a datetime and the SERVER_TIMESTAMP sentinel, the 500 text names the datetime's class, where `json.dumps` names whichever it meets first in dictionary order. A response built from documents read from the store never holds the sentinel, so the text is then always the datetime one.
- Checkout.CreatePaymentOrder: a gateway request that cannot be sent (a `college_id` JSON cannot encode, for one) is covered only as a `Failed` gateway reply.
- The JSON rendering of responses and the `JSONResponse`/status plumbing are reduced to the outcome datatypes and their `Status`/`Message` functions.

## Findings

| source | as written | input that shows it | evidently intended | confidence | as-written member | corrected member |
|---|---|---|---|---|---|---|
| app/user.py:67-68 | the payload reads `firestore.SERVER_TIMESTAMP`, but only `db` is imported from `.firebase_init` (imports at app/user.py:3-10), so building the payload raises NameError; the handler answers 500 and skips the write at app/user.py:71 | an authorised user posting a correctly signed payment with `stall_id`, `items` and `amount` present | the order document is written with server timestamps and the handler answers 201 | high; not executed | Payments.DecideAsWritten | Payments.Decide |
