/**
 * `get_user_menu` and `serialize_firestore_data`: list the user's college's
 * active, verified stalls with their available menu items, each item
 * carrying its document id, its top-level datetimes as ISO text and no
 * timestamp keys, and leave out stalls with nothing to show.
 */
module Menu {
  import opened Wrappers
  import opened Firestore

  /** A menu_items document: its id and its fields. */
  datatype ItemDoc = ItemDoc(id: string, data: Doc)

  /** A stalls document, with the documents of its menu_items sub-collection. */
  datatype StallDoc = StallDoc(id: string, data: Doc, menuItems: seq<ItemDoc>)

  /** One stall of the response. */
  datatype StallEntry = StallEntry(stallId: string, stallName: Value, menuItems: seq<Doc>)

  /** The handler's responses. */
  datatype MenuOutcome =
    | InvalidToken
    | MenuListing(collegeId: Value, stalls: seq<StallEntry>)
    | ServerError(message: string)   // the response body could not be encoded as JSON

  /** The HTTP status of each response. */
  function Status(o: MenuOutcome): (r: int)
    ensures r == 401 <==> o.InvalidToken?
    ensures r == 500 <==> o.ServerError?
    ensures r == 200 <==> o.MenuListing?
  {
    match o
    case InvalidToken => 401
    case MenuListing(_, _) => 200
    case ServerError(_) => 500
  }

  /** The `message` field of each response; the listing has none. */
  function Message(o: MenuOutcome): (m: Option<string>)
    ensures o.InvalidToken? ==> m == Some("Invalid or expired token.")
    ensures o.ServerError? ==> m == Some(o.message)
    ensures m.None? <==> o.MenuListing?
  {
    match o
    case InvalidToken => Some("Invalid or expired token.")
    case MenuListing(_, _) => None
    case ServerError(t) => Some(t)
  }

  // ---------------------------------------------------------------------
  // serialize_firestore_data

  /** A datetime becomes its ISO-8601 text; every other value is kept. */
  function Serialized(v: Value): Value
  {
    if v.Time? then Str(v.iso) else v
  }

  /** The dictionary with every top-level datetime entry rewritten. */
  function SerializedDoc(d: Doc): map<string, Value>
  {
    map k | k in d :: Serialized(d[k])
  }

  /**
   * Overwrites each datetime-valued entry with its ISO text, in place: the
   * key set is unchanged, datetime entries become strings, every other
   * entry is untouched, and no entry is a datetime any more (datetimes
   * nested inside lists or maps are left as they are).
   */
  method SerializeFirestoreData(data: Doc) returns (r: Doc)
    ensures r == SerializedDoc(data)
    ensures r.Keys == data.Keys
    ensures forall k :: k in data && !data[k].Time? ==> r[k] == data[k]
    ensures forall k :: k in data && data[k].Time? ==> r[k] == Str(data[k].iso)
    ensures forall k :: k in r ==> !r[k].Time?
  {
    r := data;
    var pending := data.Keys;
    while pending != {}
      invariant pending <= data.Keys
      invariant r.Keys == data.Keys
      invariant forall k :: k in data && k !in pending ==> r[k] == Serialized(data[k])
      invariant forall k :: k in pending ==> r[k] == data[k]
      decreases pending
    {
      var k :| k in pending;
      var v := r[k];
      if v.Time? {
        r := r[k := Str(v.iso)];
      }
      pending := pending - {k};
    }
  }

  // ---------------------------------------------------------------------
  // The two queries, evaluated by the store

  /** The elements of s that `keep` accepts, in their original order. */
  function Filter<T(!new)>(s: seq<T>, keep: T -> bool): (r: seq<T>)
    ensures |r| <= |s|
    ensures forall x :: x in r <==> x in s && keep(x)
    decreases |s|
  {
    if s == [] then []
    else
      var init := Filter(s[..|s| - 1], keep);
      assert forall x :: x in s <==> x in s[..|s| - 1] || x == s[|s| - 1];
      if keep(s[|s| - 1]) then init + [s[|s| - 1]] else init
  }

  /**
   * Filtering keeps the original order: the result for a longer sequence
   * extends the result for its prefix, by the new element when it is kept.
   */
  lemma FilterKeepsOrder<T(!new)>(s: seq<T>, x: T, keep: T -> bool)
    ensures Filter(s + [x], keep) == Filter(s, keep) + if keep(x) then [x] else []
  {
  }

  /** `.where("status", "==", "active").where("isVerified", "==", True)` */
  predicate StallMatchesQuery(s: StallDoc)
  {
    Lookup(s.data, "status") == Some(Str("active")) && Lookup(s.data, "isVerified") == Some(Bool(true))
  }

  /**
   * `.where("is_available", "==", True).order_by("created_at")`: the item is
   * flagged available, and it has the ordering field (the store leaves out
   * documents that lack it).
   */
  predicate ItemMatchesQuery(d: ItemDoc)
  {
    Lookup(d.data, "is_available") == Some(Bool(true)) && "created_at" in d.data
  }

  function QueryStalls(stalls: seq<StallDoc>): seq<StallDoc>
  {
    Filter(stalls, StallMatchesQuery)
  }

  function QueryItems(items: seq<ItemDoc>): seq<ItemDoc>
  {
    Filter(items, ItemMatchesQuery)
  }

  // ---------------------------------------------------------------------
  // Shaping the response

  const Timestamps: set<string> := {"created_at", "updated_at"}

  /**
   * One listed item: the document's fields with `item_id` set to the
   * document id, datetimes serialised, and both timestamps removed.
   */
  function ShapeItem(d: ItemDoc): (it: Doc)
    ensures it.Keys == (d.data.Keys + {"item_id"}) - Timestamps
    ensures it["item_id"] == Str(d.id)
    ensures forall k :: k in it && k != "item_id" ==> it[k] == Serialized(d.data[k])
    ensures forall k :: k in it ==> !it[k].Time?
  {
    SerializedDoc(d.data["item_id" := Str(d.id)]) - Timestamps
  }

  function ShapedItems(fetched: seq<ItemDoc>): (r: seq<Doc>)
  {
    seq(|fetched|, j requires 0 <= j < |fetched| => ShapeItem(fetched[j]))
  }

  /**
   * A stall's response entry: its document id, its `get("name")` (null when
   * it has none) and its queried menu items, shaped, in query order.
   */
  function EntryFor(s: StallDoc): (e: StallEntry)
    ensures e.stallId == s.id
    ensures e.stallName == GetOrNull(s.data, "name")
    ensures |e.menuItems| == |QueryItems(s.menuItems)|
    ensures forall n :: 0 <= n < |e.menuItems| ==> e.menuItems[n] == ShapeItem(QueryItems(s.menuItems)[n])
  {
    StallEntry(s.id, GetOrNull(s.data, "name"), ShapedItems(QueryItems(s.menuItems)))
  }

  /** The response entries for fetched stalls: those with at least one item to show. */
  function Entries(fetched: seq<StallDoc>): (r: seq<StallEntry>)
    ensures |r| <= |fetched|
    ensures forall i :: 0 <= i < |r| ==> r[i].menuItems != []
    decreases |fetched|
  {
    if fetched == [] then []
    else
      var s := fetched[|fetched| - 1];
      Entries(fetched[..|fetched| - 1]) + if QueryItems(s.menuItems) != [] then [EntryFor(s)] else []
  }

  /** The `stalls` of the response for the college's stalls collection. */
  function Listing(stalls: seq<StallDoc>): (r: seq<StallEntry>)
    ensures |r| <= |stalls|
    ensures forall i :: 0 <= i < |r| ==> r[i].menuItems != []
  {
    Entries(QueryStalls(stalls))
  }

  /** A stall entry as the JSON object the response holds. */
  function EntryValue(e: StallEntry): (v: Value)
    ensures v.Obj? && v.fields.Keys == {"stall_id", "stall_name", "menu_items"}
    ensures v.fields["stall_id"] == Str(e.stallId) && v.fields["stall_name"] == e.stallName
    ensures v.fields["menu_items"].Arr? && |v.fields["menu_items"].elems| == |e.menuItems|
    ensures forall n :: 0 <= n < |e.menuItems| ==> v.fields["menu_items"].elems[n] == Obj(e.menuItems[n])
  {
    Obj(map["stall_id" := Str(e.stallId), "stall_name" := e.stallName,
            "menu_items" := Arr(seq(|e.menuItems|, n requires 0 <= n < |e.menuItems| => Obj(e.menuItems[n])))])
  }

  /** The response body `{"college_id": ..., "stalls": ...}` as a JSON object. */
  function ResponseValue(collegeId: Value, stalls: seq<StallEntry>): (v: Value)
    ensures v.Obj? && v.fields.Keys == {"college_id", "stalls"}
    ensures v.fields["college_id"] == collegeId
    ensures v.fields["stalls"].Arr? && |v.fields["stalls"].elems| == |stalls|
    ensures forall i :: 0 <= i < |stalls| ==> v.fields["stalls"].elems[i] == EntryValue(stalls[i])
  {
    Obj(map["college_id" := collegeId,
            "stalls" := Arr(seq(|stalls|, i requires 0 <= i < |stalls| => EntryValue(stalls[i])))])
  }

  /** The response body can be encoded as JSON. */
  predicate ResponseEncodable(collegeId: Value, stalls: seq<StallEntry>)
  {
    JsonEncodable(ResponseValue(collegeId, stalls))
  }

  /** The response encodes exactly when the college id and every stall entry do. */
  lemma ResponseEncodableParts(collegeId: Value, stalls: seq<StallEntry>)
    ensures ResponseEncodable(collegeId, stalls) <==>
              JsonEncodable(collegeId) && forall i :: 0 <= i < |stalls| ==> JsonEncodable(EntryValue(stalls[i]))
  {
    var v := ResponseValue(collegeId, stalls);
    var a := v.fields["stalls"];
    assert JsonEncodable(a) <==> forall i :: 0 <= i < |stalls| ==> JsonEncodable(EntryValue(stalls[i]));
    assert JsonEncodable(v) <==> JsonEncodable(collegeId) && JsonEncodable(a);
  }

  /**
   * The handler. `stalls` is the stalls collection of the user's college,
   * each stall with its menu_items; both are in the store's order
   * (menu items by `created_at`). Encoding the response happens inside
   * the handler's `try`, so a value JSON cannot encode (a datetime nested
   * in a list or map, or a datetime college or stall name) gives the 500.
   */
  method GetUserMenu(user: UserLookup, stalls: seq<StallDoc>) returns (outcome: MenuOutcome)
    ensures !Authorised(user) <==> outcome == InvalidToken
    ensures Authorised(user) && ResponseEncodable(CollegeOf(user), Listing(stalls)) ==>
              outcome == MenuListing(CollegeOf(user), Listing(stalls))
    ensures Authorised(user) && !ResponseEncodable(CollegeOf(user), Listing(stalls)) ==>
              outcome == ServerError(EncodeErrorText(ResponseValue(CollegeOf(user), Listing(stalls))))
  {
    if !Authorised(user) {
      return InvalidToken;
    }
    var collegeId := CollegeOf(user);
    var stallsDocs := QueryStalls(stalls);
    var stallsResponse: seq<StallEntry> := [];
    var i := 0;
    while i < |stallsDocs|
      invariant 0 <= i <= |stallsDocs|
      invariant stallsResponse == Entries(stallsDocs[..i])
    {
      var stallDoc := stallsDocs[i];
      var menuItemsDocs := QueryItems(stallDoc.menuItems);
      var menuItems: seq<Doc> := [];
      var j := 0;
      while j < |menuItemsDocs|
        invariant 0 <= j <= |menuItemsDocs|
        invariant |menuItems| == j
        invariant forall n :: 0 <= n < j ==> menuItems[n] == ShapeItem(menuItemsDocs[n])
      {
        var itemDoc := menuItemsDocs[j];
        var item := itemDoc.data;
        item := item["item_id" := Str(itemDoc.id)];
        item := SerializeFirestoreData(item);
        item := item - Timestamps;
        assert item == ShapeItem(itemDoc);
        menuItems := menuItems + [item];
        j := j + 1;
      }
      assert menuItems == ShapedItems(menuItemsDocs);
      assert stallsDocs[..i + 1][..i] == stallsDocs[..i];
      assert menuItems == EntryFor(stallDoc).menuItems;
      if menuItems != [] {
        stallsResponse := stallsResponse + [StallEntry(stallDoc.id, GetOrNull(stallDoc.data, "name"), menuItems)];
      }
      i := i + 1;
    }
    assert stallsDocs[..i] == stallsDocs;
    if !ResponseEncodable(collegeId, stallsResponse) {
      return ServerError(EncodeErrorText(ResponseValue(collegeId, stallsResponse)));
    }
    outcome := MenuListing(collegeId, stallsResponse);
  }

  // ---------------------------------------------------------------------
  // What the listing promises

  /** Entries holds exactly the entries of the fetched stalls that have items to show. */
  lemma {:induction false} EntriesMembers(fetched: seq<StallDoc>, e: StallEntry)
    ensures e in Entries(fetched) <==>
              exists s :: s in fetched && QueryItems(s.menuItems) != [] && e == EntryFor(s)
    decreases |fetched|
  {
    if fetched != [] {
      var init := fetched[..|fetched| - 1];
      EntriesMembers(init, e);
      assert forall s :: s in fetched <==> s in init || s == fetched[|fetched| - 1];
    }
  }

  /**
   * A stall is listed exactly when it is active and verified and has at
   * least one available menu item; its entry then lists those items.
   */
  lemma ListingMembers(stalls: seq<StallDoc>, e: StallEntry)
    ensures e in Listing(stalls) <==>
              exists s :: s in stalls && StallMatchesQuery(s) &&
                          (exists d :: d in s.menuItems && ItemMatchesQuery(d)) && e == EntryFor(s)
  {
    EntriesMembers(QueryStalls(stalls), e);
    forall s | s in stalls
      ensures QueryItems(s.menuItems) != [] <==> exists d :: d in s.menuItems && ItemMatchesQuery(d)
    {
      if exists d :: d in s.menuItems && ItemMatchesQuery(d) {
        var d :| d in s.menuItems && ItemMatchesQuery(d);
        assert d in QueryItems(s.menuItems);
      }
      if QueryItems(s.menuItems) != [] {
        assert QueryItems(s.menuItems)[0] in QueryItems(s.menuItems);
      }
    }
  }

  /**
   * Every item of a stall's entry is one of its menu items that the query
   * returned, shaped: it is available, carries its document id as
   * `item_id` and has no timestamp keys.
   */
  lemma EntryItemShape(s: StallDoc, it: Doc)
    requires it in EntryFor(s).menuItems
    ensures "item_id" in it && "created_at" !in it && "updated_at" !in it
    ensures "is_available" in it && it["is_available"] == Bool(true)
    ensures exists d :: d in s.menuItems && ItemMatchesQuery(d) && it == ShapeItem(d) && it["item_id"] == Str(d.id)
  {
    var fetched := QueryItems(s.menuItems);
    var n :| 0 <= n < |fetched| && ShapedItems(fetched)[n] == it;
    var d := fetched[n];
    assert d in fetched;
    assert it == ShapeItem(d);
    ShapedAvailable(d);
  }

  /**
   * Every listed stall is an active, verified stall of the college and
   * shows at least one item, and each item it shows is shaped as above.
   */
  lemma ListingShape(stalls: seq<StallDoc>, e: StallEntry)
    requires e in Listing(stalls)
    ensures e.menuItems != []
    ensures exists s :: s in stalls && StallMatchesQuery(s) && e == EntryFor(s)
    ensures forall it :: it in e.menuItems ==>
              "item_id" in it && "created_at" !in it && "updated_at" !in it &&
              "is_available" in it && it["is_available"] == Bool(true)
  {
    ListingMembers(stalls, e);
    var s :| s in stalls && StallMatchesQuery(s) &&
             (exists d :: d in s.menuItems && ItemMatchesQuery(d)) && e == EntryFor(s);
    var d0 :| d0 in s.menuItems && ItemMatchesQuery(d0);
    assert d0 in QueryItems(s.menuItems);
    forall it | it in e.menuItems
      ensures "item_id" in it && "created_at" !in it && "updated_at" !in it &&
              "is_available" in it && it["is_available"] == Bool(true)
    {
      EntryItemShape(s, it);
    }
  }

  /** An item the query returns is still marked available once shaped. */
  lemma ShapedAvailable(d: ItemDoc)
    requires ItemMatchesQuery(d)
    ensures "is_available" in ShapeItem(d) && ShapeItem(d)["is_available"] == Bool(true)
  {
  }
}
