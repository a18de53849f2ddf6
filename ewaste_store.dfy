/** The e-waste item routes (backend/routers/ewaste.py) over the `ewaste_items`
    and `users` tables (backend/models/ewaste_model.py, user_model.py).

    The database is an `ItemStore` object: the item rows in row-id order and
    the users by primary key.  Route handlers that change the tables are
    methods that modify the store; the read-only routes are functions or
    methods that read it.  The image analysis service and the clock are
    parameters. */
module EwasteStore {
  import opened Wrappers
  import ImageHandler

  /** The JSON document returned by the image analysis service, kept opaque. */
  type Analysis = string

  /** A row of `ewaste_items`.  `category` is NOT NULL; `tag`, `price`,
      `product_name`, `image_path` and `gemini_analysis` may be NULL. */
  datatype Item = Item(id: int, userId: int, category: string, productName: Option<string>,
                       isWorking: bool, imagePath: Option<string>, tag: Option<string>,
                       analysis: Option<Analysis>, price: Option<int>)

  /** The columns of a `users` row that the routes read. */
  datatype User = User(id: int, name: string, phone: Option<string>)

  /** An `HTTPException`. */
  datatype HttpError = HttpError(status: int, detail: string)

  /** The form fields of POST /ewaste/add; `image` is the uploaded file's name. */
  datatype AddRequest = AddRequest(userId: int, category: string, productName: Option<string>,
                                   isWorking: bool, price: Option<int>, image: Option<string>)

  const PriceRequired: HttpError := HttpError(400, "Price is required for working items")
  /** The response FastAPI gives when `save_image` raises: the exception is
      not caught, so the server answers 500. */
  const UploadFailed: HttpError := HttpError(500, "Internal Server Error")
  const ItemNotFound: HttpError := HttpError(404, "Item not found")

  /** Python truthiness of an optional integer: `None` and `0` are false. */
  predicate IntTruthy(p: Option<int>) {
    p.Some? && p.value != 0
  }

  /** Python truthiness of an optional string: `None` and `""` are false. */
  predicate StrTruthy(s: Option<string>) {
    s.Some? && s.value != ""
  }

  // ---------------------------------------------------------------------
  // add_ewaste

  /** Whether `save_image` raises for the request's upload. */
  predicate UploadFails(req: AddRequest) {
    req.image.Some? && ImageHandler.HasSeparator(req.image.value)
  }

  /** The row `add_ewaste` inserts, given the row id the table assigns, or the
      error it answers with.  The upload is saved first, so an upload whose
      write fails gives 500 whatever else the request holds; then a working
      item without a (non-zero) price gives 400.  A working item is tagged
      "reuse" and keeps its price; any other item is tagged "recycle", loses
      its price, and is analysed when it has an image. */
  function NewItem(req: AddRequest, id: int, now: ImageHandler.DateTime, analyze: string -> Analysis): (r: Result<Item, HttpError>)
    ensures r.Err? <==> UploadFails(req) || (req.isWorking && !IntTruthy(req.price))
    ensures UploadFails(req) ==> r == Err(UploadFailed)
    ensures !UploadFails(req) && r.Err? ==> r.error == PriceRequired
    ensures r.Ok? ==> var it := r.value;
      && it.id == id && it.userId == req.userId && it.category == req.category
      && it.productName == req.productName && it.isWorking == req.isWorking
      && (it.imagePath.Some? <==> req.image.Some?)
      && (req.image.Some? ==> it.imagePath.value == ImageHandler.SavedPath(now, req.image.value))
    ensures r.Ok? && req.isWorking ==> r.value.tag == Some("reuse") && r.value.price == req.price && r.value.analysis == None
    ensures !req.isWorking && !UploadFails(req) ==> r.Ok? && r.value.tag == Some("recycle") && r.value.price == None
    ensures !req.isWorking && r.Ok? ==> (r.value.analysis.Some? <==> req.image.Some?)
  {
    var imagePath := if req.image.Some? then ImageHandler.SaveImage(now, req.image.value) else None;
    if req.image.Some? && imagePath.None? then Err(UploadFailed)
    else if req.isWorking then
      if !IntTruthy(req.price) then Err(PriceRequired)
      else Ok(Item(id, req.userId, req.category, req.productName, true, imagePath, Some("reuse"), None, req.price))
    else
      var analysis := if StrTruthy(imagePath) then Some(analyze(imagePath.value)) else None;
      Ok(Item(id, req.userId, req.category, req.productName, false, imagePath, Some("recycle"), analysis, None))
  }

  /** No two rows share an id (the primary key). */
  predicate UniqueIds(items: seq<Item>) {
    forall i, j :: 0 <= i < j < |items| ==> items[i].id != items[j].id
  }

  /** The rows are in row-id order, each id larger than the one before. */
  predicate IdsIncreasing(items: seq<Item>) {
    forall i, j :: 0 <= i < j < |items| ==> items[i].id < items[j].id
  }

  /** The id SQLite gives a new row of a table whose key is an INTEGER PRIMARY
      KEY: one more than the largest id present, or 1 for an empty table. */
  function NextRowId(items: seq<Item>): (n: int)
    ensures forall i :: 0 <= i < |items| ==> items[i].id < n
    ensures items == [] ==> n == 1
    ensures items != [] ==> exists i :: 0 <= i < |items| && items[i].id == n - 1
  {
    if items == [] then 1
    else
      var prefix := items[..|items| - 1];
      var last := items[|items| - 1].id + 1;
      assert forall i :: 0 <= i < |prefix| ==> prefix[i] == items[i];
      if prefix == [] then last
      else
        var m := NextRowId(prefix);
        if m < last then last else m
  }

  // ---------------------------------------------------------------------
  // filter_items, get_user_items

  /** The rows of `items` that satisfy `keep`, in order. */
  function Where(items: seq<Item>, keep: Item -> bool): (r: seq<Item>)
    ensures |r| <= |items|
    ensures forall x :: x in r <==> x in items && keep(x)
  {
    if items == [] then []
    else
      var rest := Where(items[1..], keep);
      assert forall x :: x in items <==> x == items[0] || x in items[1..];
      if keep(items[0]) then [items[0]] + rest else rest
  }

  /** A filter keeps each matching row as often as the input holds it, and
      no other row. */
  lemma {:induction false} WhereCounts(items: seq<Item>, keep: Item -> bool)
    ensures forall x :: multiset(Where(items, keep))[x] == if keep(x) then multiset(items)[x] else 0
  {
    if items != [] {
      WhereCounts(items[1..], keep);
      assert items == [items[0]] + items[1..];
    }
  }

  /** Whether a row passes the optional filters of `filter_items`: a missing
      or empty filter imposes nothing; a NULL tag never equals a given one. */
  predicate MatchesFilter(x: Item, tag: Option<string>, category: Option<string>)
    ensures !StrTruthy(tag) && !StrTruthy(category) ==> MatchesFilter(x, tag, category)
    ensures MatchesFilter(x, tag, category) && StrTruthy(tag) ==> x.tag.Some? && x.tag.value == tag.value
    ensures MatchesFilter(x, tag, category) && StrTruthy(category) ==> x.category == category.value
    ensures !StrTruthy(category) ==> (MatchesFilter(x, tag, category) <==> !StrTruthy(tag) || x.tag == Some(tag.value))
    ensures !StrTruthy(tag) ==> (MatchesFilter(x, tag, category) <==> !StrTruthy(category) || x.category == category.value)
  {
    && (StrTruthy(tag) ==> x.tag == Some(tag.value))
    && (StrTruthy(category) ==> x.category == category.value)
  }

  /** `filter_items`: narrow by tag when one is given, then by category. */
  function FilterItems(items: seq<Item>, tag: Option<string>, category: Option<string>): (r: seq<Item>)
    ensures forall x :: x in r <==> x in items && MatchesFilter(x, tag, category)
    ensures forall x :: multiset(r)[x] == if MatchesFilter(x, tag, category) then multiset(items)[x] else 0
    ensures !StrTruthy(tag) && !StrTruthy(category) ==> r == items
    ensures |r| <= |items|
  {
    if StrTruthy(tag) then
      var byTag := Where(items, (x: Item) => x.tag == Some(tag.value));
      WhereCounts(items, (x: Item) => x.tag == Some(tag.value));
      if StrTruthy(category) then
        WhereCounts(byTag, (x: Item) => x.category == category.value);
        Where(byTag, (x: Item) => x.category == category.value)
      else byTag
    else if StrTruthy(category) then
      WhereCounts(items, (x: Item) => x.category == category.value);
      Where(items, (x: Item) => x.category == category.value)
    else items
  }

  /** `get_user_items`: the rows submitted by one user. */
  function UserItems(items: seq<Item>, userId: int): (r: seq<Item>)
    ensures forall x :: x in r <==> x in items && x.userId == userId
    ensures forall x :: multiset(r)[x] == if x.userId == userId then multiset(items)[x] else 0
  {
    WhereCounts(items, (x: Item) => x.userId == userId);
    Where(items, (x: Item) => x.userId == userId)
  }

  // ---------------------------------------------------------------------
  // get_all_items, get_reusable_items

  /** A row of `EwasteWithUserOut`.  `get_all_items` leaves out the price and
      the phone, so the response carries their default `None`. */
  datatype Listing = Listing(id: int, userId: int, category: string, productName: Option<string>,
                             isWorking: bool, imagePath: Option<string>, tag: Option<string>,
                             analysis: Option<Analysis>, price: Option<int>,
                             userName: string, userPhone: Option<string>)

  /** The listing of an item and its owner; with `contact` it carries the
      item's price and the owner's phone (`get_reusable_items`). */
  function ListingOf(it: Item, owner: User, contact: bool): (l: Listing)
    ensures l.id == it.id && l.userId == it.userId && l.tag == it.tag && l.userName == owner.name
    ensures l.category == it.category && l.productName == it.productName && l.isWorking == it.isWorking
    ensures l.imagePath == it.imagePath && l.analysis == it.analysis
    ensures contact ==> l.price == it.price && l.userPhone == owner.phone
    ensures !contact ==> l.price == None && l.userPhone == None
  {
    Listing(it.id, it.userId, it.category, it.productName, it.isWorking, it.imagePath, it.tag,
            it.analysis, if contact then it.price else None, owner.name,
            if contact then owner.phone else None)
  }

  /** The listings of the rows whose owner exists, in row order. */
  function Join(items: seq<Item>, users: map<int, User>, contact: bool): (r: seq<Listing>)
    ensures |r| <= |items|
  {
    if items == [] then []
    else
      var it := items[|items| - 1];
      var rest := Join(items[..|items| - 1], users, contact);
      if it.userId in users then rest + [ListingOf(it, users[it.userId], contact)] else rest
  }

  /** The join is "keep the rows whose owner exists, then list each with its
      owner": store order is kept and orphaned rows are dropped. */
  lemma {:induction false} JoinIsFilterThenList(items: seq<Item>, users: map<int, User>, contact: bool)
    ensures var kept := Where(items, (x: Item) => x.userId in users);
      && |Join(items, users, contact)| == |kept|
      && forall i :: 0 <= i < |kept| ==>
           kept[i].userId in users
           && Join(items, users, contact)[i] == ListingOf(kept[i], users[kept[i].userId], contact)
  {
    if items != [] {
      var it := items[|items| - 1];
      var prefix := items[..|items| - 1];
      JoinIsFilterThenList(prefix, users, contact);
      WhereSnoc(prefix, it, (x: Item) => x.userId in users);
      assert items == prefix + [it];
    }
    var kept := Where(items, (x: Item) => x.userId in users);
    assert forall i :: 0 <= i < |kept| ==> kept[i] in kept;
  }

  /** Filtering a sequence extended at the end. */
  lemma {:induction false} WhereSnoc(items: seq<Item>, it: Item, keep: Item -> bool)
    ensures Where(items + [it], keep) == Where(items, keep) + (if keep(it) then [it] else [])
  {
    if items != [] {
      WhereSnoc(items[1..], it, keep);
      assert (items + [it])[1..] == items[1..] + [it];
    }
  }

  /** The response of `analytics` (or of its error branch). */
  datatype AnalyticsRow = AnalyticsRow(id: int, userId: int, category: string, productName: string,
                                       isWorking: bool, imagePath: Option<string>, tag: string,
                                       analysis: Option<Analysis>, price: Option<int>,
                                       userName: Option<string>)

  datatype Report = Report(total: nat, byTag: map<string, nat>, byCategory: map<string, nat>,
                           allItems: seq<AnalyticsRow>, error: Option<string>)

  const TagKeys: seq<string> := ["reuse", "resell", "recycle", "unknown"]
  const CategoryKeys: seq<string> := ["consumer", "utility", "unknown"]

  /** The tag an item is counted under: a NULL or empty tag is "unknown". */
  function TagOf(it: Item): (t: string)
    ensures t != ""
    ensures it.tag.Some? && it.tag.value != "" ==> t == it.tag.value
    ensures it.tag.None? || it.tag.value == "" ==> t == "unknown"
  {
    if it.tag.None? || it.tag.value == "" then "unknown" else it.tag.value
  }

  /** The category an item is counted under: an empty category is "unknown". */
  function CategoryOf(it: Item): (c: string)
    ensures c != ""
    ensures it.category != "" ==> c == it.category
    ensures it.category == "" ==> c == "unknown"
  {
    if it.category == "" then "unknown" else it.category
  }

  function Tags(items: seq<Item>): (r: seq<string>)
    ensures |r| == |items| && forall i :: 0 <= i < |items| ==> r[i] == TagOf(items[i])
  {
    seq(|items|, i requires 0 <= i < |items| => TagOf(items[i]))
  }

  function Categories(items: seq<Item>): (r: seq<string>)
    ensures |r| == |items| && forall i :: 0 <= i < |items| ==> r[i] == CategoryOf(items[i])
  {
    seq(|items|, i requires 0 <= i < |items| => CategoryOf(items[i]))
  }

  /** How many entries of `xs` equal `k`. */
  function Occurrences(xs: seq<string>, k: string): (n: nat)
    ensures n <= |xs|
  {
    if xs == [] then 0 else Occurrences(xs[..|xs| - 1], k) + (if xs[|xs| - 1] == k then 1 else 0)
  }

  /** The count map over a fixed key list: values outside the keys are not counted. */
  function Counts(keys: seq<string>, xs: seq<string>): (m: map<string, nat>)
    ensures m.Keys == set k | k in keys
  {
    map k | k in keys :: Occurrences(xs, k)
  }

  /** The per-item row of `all_items`, with defaults for missing values. */
  function RowOf(it: Item, users: map<int, User>): (row: AnalyticsRow)
    ensures row.id == it.id && row.tag == TagOf(it) && row.category == CategoryOf(it) && row.price == it.price
    ensures row.productName == if it.productName.Some? then it.productName.value else ""
    ensures row.userName.Some? <==> it.userId in users
    ensures row.userName.Some? ==> row.userName.value == users[it.userId].name
  {
    AnalyticsRow(it.id, it.userId, CategoryOf(it),
                 if it.productName.Some? then it.productName.value else "",
                 it.isWorking, it.imagePath, TagOf(it), it.analysis, it.price,
                 if it.userId in users then Some(users[it.userId].name) else None)
  }

  function Rows(items: seq<Item>, users: map<int, User>): (r: seq<AnalyticsRow>)
    ensures |r| == |items| && forall i :: 0 <= i < |items| ==> r[i] == RowOf(items[i], users)
  {
    seq(|items|, i requires 0 <= i < |items| => RowOf(items[i], users))
  }

  /** The report of the `except` branch. */
  function ErrorReport(message: string): Report {
    Report(0, Counts(TagKeys, []), Counts(CategoryKeys, []), [], Some(message))
  }

  /** One step of a counting loop: bump the entry's key if it has one. */
  lemma CountsSnoc(keys: seq<string>, xs: seq<string>, x: string, m: map<string, nat>)
    requires m == Counts(keys, xs)
    ensures Counts(keys, xs + [x]) == if x in m then m[x := m[x] + 1] else m
  {
    assert (xs + [x])[..|xs|] == xs;
  }

  lemma TagsSnoc(items: seq<Item>, i: nat)
    requires i < |items|
    ensures Tags(items[..i + 1]) == Tags(items[..i]) + [TagOf(items[i])]
  {
  }

  lemma CategoriesSnoc(items: seq<Item>, i: nat)
    requires i < |items|
    ensures Categories(items[..i + 1]) == Categories(items[..i]) + [CategoryOf(items[i])]
  {
  }

  /** The counts over a list of keys added up. */
  function SumCounts(keys: seq<string>, xs: seq<string>): nat {
    if keys == [] then 0 else SumCounts(keys[..|keys| - 1], xs) + Occurrences(xs, keys[|keys| - 1])
  }

  predicate Distinct(keys: seq<string>) {
    forall i, j :: 0 <= i < j < |keys| ==> keys[i] != keys[j]
  }

  /** How many entries of `xs` are outside the key list. */
  function Outside(keys: seq<string>, xs: seq<string>): (n: nat)
    ensures n <= |xs|
  {
    if xs == [] then 0 else Outside(keys, xs[..|xs| - 1]) + (if xs[|xs| - 1] in keys then 0 else 1)
  }

  lemma {:induction false} SumCountsSnoc(keys: seq<string>, xs: seq<string>, x: string)
    requires Distinct(keys)
    ensures SumCounts(keys, xs + [x]) == SumCounts(keys, xs) + (if x in keys then 1 else 0)
  {
    var ys := xs + [x];
    assert ys[..|ys| - 1] == xs;
    if keys != [] {
      var init := keys[..|keys| - 1];
      SumCountsSnoc(init, xs, x);
      assert x in keys <==> x in init || x == keys[|keys| - 1];
      if x == keys[|keys| - 1] {
        assert x !in init;
      }
    }
  }

  /** Every entry is counted under exactly one key, or under none. */
  lemma {:induction false} SumCountsPlusOutside(keys: seq<string>, xs: seq<string>)
    requires Distinct(keys)
    ensures SumCounts(keys, xs) + Outside(keys, xs) == |xs|
  {
    if xs != [] {
      var init := xs[..|xs| - 1];
      SumCountsPlusOutside(keys, init);
      SumCountsSnoc(keys, init, xs[|xs| - 1]);
      assert init + [xs[|xs| - 1]] == xs;
    } else {
      SumCountsEmpty(keys);
    }
  }

  lemma {:induction false} SumCountsEmpty(keys: seq<string>)
    ensures SumCounts(keys, []) == 0
  {
    if keys != [] {
      SumCountsEmpty(keys[..|keys| - 1]);
    }
  }

  lemma {:induction false} OutsideNone(keys: seq<string>, xs: seq<string>)
    requires forall i :: 0 <= i < |xs| ==> xs[i] in keys
    ensures Outside(keys, xs) == 0
  {
    if xs != [] {
      OutsideNone(keys, xs[..|xs| - 1]);
    }
  }

  /** The tag counts add up to at most the number of items, and to exactly
      that number when every tag is one of the four keys. */
  lemma TagCountsSum(items: seq<Item>)
    ensures var m := Counts(TagKeys, Tags(items));
      && m["reuse"] + m["resell"] + m["recycle"] + m["unknown"] <= |items|
      && ((forall i :: 0 <= i < |items| ==> TagOf(items[i]) in TagKeys) ==>
            m["reuse"] + m["resell"] + m["recycle"] + m["unknown"] == |items|)
  {
    var xs := Tags(items);
    SumCountsPlusOutside(TagKeys, xs);
    var k3 := TagKeys[..3];
    var k2 := k3[..2];
    var k1 := k2[..1];
    assert SumCounts(k1, xs) == Occurrences(xs, "reuse") by {
      assert k1[..0] == [];
    }
    assert SumCounts(TagKeys, xs) == SumCounts(k3, xs) + Occurrences(xs, "unknown");
    assert SumCounts(k3, xs) == SumCounts(k2, xs) + Occurrences(xs, "recycle");
    assert SumCounts(k2, xs) == SumCounts(k1, xs) + Occurrences(xs, "resell");
    if forall i :: 0 <= i < |items| ==> TagOf(items[i]) in TagKeys {
      OutsideNone(TagKeys, xs);
    }
  }

  /** The category counts add up to at most the number of items, and to
      exactly that number when every category is one of the three keys. */
  lemma CategoryCountsSum(items: seq<Item>)
    ensures var m := Counts(CategoryKeys, Categories(items));
      && m["consumer"] + m["utility"] + m["unknown"] <= |items|
      && ((forall i :: 0 <= i < |items| ==> CategoryOf(items[i]) in CategoryKeys) ==>
            m["consumer"] + m["utility"] + m["unknown"] == |items|)
  {
    var xs := Categories(items);
    SumCountsPlusOutside(CategoryKeys, xs);
    var k2 := CategoryKeys[..2];
    var k1 := k2[..1];
    assert SumCounts(k1, xs) == Occurrences(xs, "consumer") by {
      assert k1[..0] == [];
    }
    assert SumCounts(CategoryKeys, xs) == SumCounts(k2, xs) + Occurrences(xs, "unknown");
    assert SumCounts(k2, xs) == SumCounts(k1, xs) + Occurrences(xs, "utility");
    if forall i :: 0 <= i < |items| ==> CategoryOf(items[i]) in CategoryKeys {
      OutsideNone(CategoryKeys, xs);
    }
  }

  // ---------------------------------------------------------------------
  // delete_item

  /** `.filter(EwasteItem.id == id).first()`: the position of the first row
      with that id. */
  function FindId(items: seq<Item>, id: int): (k: Option<nat>)
    ensures k.None? <==> forall i :: 0 <= i < |items| ==> items[i].id != id
    ensures k.Some? ==> k.value < |items| && items[k.value].id == id
    ensures k.Some? ==> forall i :: 0 <= i < k.value ==> items[i].id != id
  {
    if items == [] then None
    else if items[0].id == id then Some(0)
    else match FindId(items[1..], id)
      case None => None
      case Some(k) => Some(k + 1)
  }

  /** `items` without the row at position `k`. */
  function RemoveAt(items: seq<Item>, k: nat): (rest: seq<Item>)
    requires k < |items|
    ensures |rest| == |items| - 1
    ensures forall j :: 0 <= j < k ==> rest[j] == items[j]
    ensures forall j :: k <= j < |rest| ==> rest[j] == items[j + 1]
  {
    items[..k] + items[k + 1..]
  }

  /** With unique ids, deleting the row found for `id` removes exactly that
      row: one fewer row, none left with that id, every other row kept, and
      the ids stay unique. */
  lemma DeleteRemovesExactlyOne(items: seq<Item>, id: int)
    requires UniqueIds(items) && FindId(items, id).Some?
    ensures var rest := RemoveAt(items, FindId(items, id).value);
      && |rest| == |items| - 1
      && (forall j :: 0 <= j < |rest| ==> rest[j].id != id)
      && (forall x :: x in items && x.id != id ==> x in rest)
      && multiset(items) == multiset(rest) + multiset{items[FindId(items, id).value]}
      && UniqueIds(rest)
  {
    var k := FindId(items, id).value;
    RemoveAtKeepsOthers(items, k);
    RemoveAtMultiset(items, k);
    RemoveAtUnique(items, k);
  }

  lemma RemoveAtMultiset(items: seq<Item>, k: nat)
    requires k < |items|
    ensures multiset(items) == multiset(RemoveAt(items, k)) + multiset{items[k]}
  {
    assert items == items[..k] + [items[k]] + items[k + 1..];
  }

  /** With unique ids, the removed row's id no longer occurs, and the ids of
      the remaining rows stay unique. */
  lemma RemoveAtUnique(items: seq<Item>, k: nat)
    requires k < |items| && UniqueIds(items)
    ensures forall j :: 0 <= j < |RemoveAt(items, k)| ==> RemoveAt(items, k)[j].id != items[k].id
    ensures UniqueIds(RemoveAt(items, k))
  {
  }

  /** Removing one position keeps every row not at that position. */
  lemma RemoveAtKeepsOthers(items: seq<Item>, k: nat)
    requires k < |items|
    ensures forall x :: x in items && x != items[k] ==> x in RemoveAt(items, k)
  {
    var rest := RemoveAt(items, k);
    forall x | x in items && x != items[k] ensures x in rest {
      var j :| 0 <= j < |items| && items[j] == x;
      if j < k { assert rest[j] == x; } else { assert rest[j - 1] == x; }
    }
  }

  // ---------------------------------------------------------------------
  // The store

  class ItemStore {
    var items: seq<Item>
    var users: map<int, User>

    /** The rows are in row-id order (so ids are unique) and every user is
        filed under its own id. */
    ghost predicate Valid()
      reads this
    {
      IdsIncreasing(items) && forall k :: k in users ==> users[k].id == k
    }

    constructor (users: map<int, User>)
      requires forall k :: k in users ==> users[k].id == k
      ensures Valid() && this.items == [] && this.users == users
    {
      this.items := [];
      this.users := users;
    }

    /** POST /ewaste/add: insert the new row, or fail (500 when the upload
        cannot be written, 400 for a working item without a price) and insert
        nothing.  The bytes written by `save_image` are I/O and are not modelled. */
    method Add(req: AddRequest, now: ImageHandler.DateTime, analyze: string -> Analysis) returns (r: Result<Item, HttpError>)
      requires Valid()
      modifies this
      ensures Valid() && users == old(users)
      ensures r == NewItem(req, NextRowId(old(items)), now, analyze)
      ensures items == if r.Ok? then old(items) + [r.value] else old(items)
    {
      r := NewItem(req, NextRowId(items), now, analyze);
      if r.Ok? {
        items := items + [r.value];
      }
    }

    /** DELETE /ewaste/{item_id}: 404 when no row has the id, otherwise
        remove that row and keep the others in order. */
    method Delete(id: int) returns (r: Result<(), HttpError>)
      requires Valid()
      modifies this
      ensures Valid() && users == old(users)
      ensures r.Err? <==> FindId(old(items), id).None?
      ensures r.Err? ==> r.error == ItemNotFound && items == old(items)
      ensures r.Ok? ==> items == RemoveAt(old(items), FindId(old(items), id).value)
    {
      var found := FindId(items, id);
      if found.None? {
        return Err(ItemNotFound);
      }
      IncreasingIdsUnique(items);
      DeleteRemovesExactlyOne(items, id);
      var k := found.value;
      RemoveAtIncreasing(items, k);
      items := RemoveAt(items, k);
      r := Ok(());
    }

    /** GET /ewaste/all: every row whose owner exists, with the owner's name. */
    method AllItems() returns (result: seq<Listing>)
      ensures result == Join(items, users, false)
    {
      result := [];
      var i := 0;
      while i < |items|
        invariant 0 <= i <= |items|
        invariant result == Join(items[..i], users, false)
      {
        var item := items[i];
        assert items[..i + 1][..i] == items[..i];
        if item.userId in users {
          var user := users[item.userId];
          result := result + [ListingOf(item, user, false)];
        }
        i := i + 1;
      }
      assert items[..i] == items;
    }

    /** GET /ewaste/reusable: the rows tagged "reuse" whose owner exists, with
        their price and the owner's name and phone. */
    method ReusableItems() returns (result: seq<Listing>)
      ensures result == Join(Where(items, (x: Item) => x.tag == Some("reuse")), users, true)
    {
      var reusable := Where(items, (x: Item) => x.tag == Some("reuse"));
      result := [];
      var i := 0;
      while i < |reusable|
        invariant 0 <= i <= |reusable|
        invariant result == Join(reusable[..i], users, true)
      {
        var item := reusable[i];
        assert reusable[..i + 1][..i] == reusable[..i];
        if item.userId in users {
          var user := users[item.userId];
          result := result + [ListingOf(item, user, true)];
        }
        i := i + 1;
      }
      assert reusable[..i] == reusable;
    }

    /** GET /ewaste/analytics.  `failure` is the exception a database query
        raised, if any; the handler then answers with an all-zero report. */
    method Analytics(failure: Option<string>) returns (report: Report)
      ensures failure.Some? ==> report == ErrorReport(failure.value)
      ensures failure.None? ==> report == Report(|items|, Counts(TagKeys, Tags(items)),
                                                 Counts(CategoryKeys, Categories(items)),
                                                 Rows(items, users), None)
    {
      if failure.Some? {
        return ErrorReport(failure.value);
      }
      var allItems := AnalyticsRows();
      var total := |items|;
      var tagCounts := TagCounts();
      var categoryCounts := CategoryCounts();
      report := Report(total, tagCounts, categoryCounts, allItems, None);
    }

    /** The `all_items` loop of `analytics`. */
    method AnalyticsRows() returns (allItems: seq<AnalyticsRow>)
      ensures allItems == Rows(items, users)
    {
      allItems := [];
      var i := 0;
      while i < |items|
        invariant 0 <= i <= |items|
        invariant allItems == Rows(items[..i], users)
      {
        allItems := allItems + [RowOf(items[i], users)];
        i := i + 1;
      }
      assert items[..i] == items;
    }

    /** The `tag_counts` loop of `analytics`. */
    method TagCounts() returns (tagCounts: map<string, nat>)
      ensures tagCounts == Counts(TagKeys, Tags(items))
    {
      tagCounts := map["reuse" := 0, "resell" := 0, "recycle" := 0, "unknown" := 0];
      assert tagCounts == Counts(TagKeys, []);
      var i := 0;
      while i < |items|
        invariant 0 <= i <= |items|
        invariant tagCounts == Counts(TagKeys, Tags(items[..i]))
      {
        var itemTag := TagOf(items[i]);
        CountsSnoc(TagKeys, Tags(items[..i]), itemTag, tagCounts);
        TagsSnoc(items, i);
        if itemTag in tagCounts {
          tagCounts := tagCounts[itemTag := tagCounts[itemTag] + 1];
        }
        i := i + 1;
      }
      assert items[..i] == items;
    }

    /** The `category_counts` loop of `analytics`. */
    method CategoryCounts() returns (categoryCounts: map<string, nat>)
      ensures categoryCounts == Counts(CategoryKeys, Categories(items))
    {
      categoryCounts := map["consumer" := 0, "utility" := 0, "unknown" := 0];
      assert categoryCounts == Counts(CategoryKeys, []);
      var i := 0;
      while i < |items|
        invariant 0 <= i <= |items|
        invariant categoryCounts == Counts(CategoryKeys, Categories(items[..i]))
      {
        var itemCategory := CategoryOf(items[i]);
        CountsSnoc(CategoryKeys, Categories(items[..i]), itemCategory, categoryCounts);
        CategoriesSnoc(items, i);
        if itemCategory in categoryCounts {
          categoryCounts := categoryCounts[itemCategory := categoryCounts[itemCategory] + 1];
        }
        i := i + 1;
      }
      assert items[..i] == items;
    }
  }

  // ---------------------------------------------------------------------
  // Properties of the routes

  /** Every reusable listing is of a row tagged "reuse" that belongs to an
      existing user, carries that row's price and the owner's contact. */
  lemma ReusableListingsAreReuse(items: seq<Item>, users: map<int, User>)
    ensures var kept := Where(Where(items, (x: Item) => x.tag == Some("reuse")), (x: Item) => x.userId in users);
      var r := Join(Where(items, (x: Item) => x.tag == Some("reuse")), users, true);
      && |r| == |kept|
      && forall i :: 0 <= i < |r| ==>
           && kept[i] in items
           && r[i].tag == Some("reuse") && r[i].price == kept[i].price
           && r[i].userName == users[kept[i].userId].name
           && r[i].userPhone == users[kept[i].userId].phone
  {
    var reusable := Where(items, (x: Item) => x.tag == Some("reuse"));
    JoinIsFilterThenList(reusable, users, true);
    var kept := Where(reusable, (x: Item) => x.userId in users);
    assert forall i :: 0 <= i < |kept| ==> kept[i] in kept;
  }

  /** The analytics maps have exactly the fixed keys and start from zero: an
      empty table, or the error branch, reports zero everywhere. */
  lemma EmptyReportIsZero(message: string)
    ensures var e := ErrorReport(message);
      && e.byTag == map["reuse" := 0, "resell" := 0, "recycle" := 0, "unknown" := 0]
      && e.byCategory == map["consumer" := 0, "utility" := 0, "unknown" := 0]
      && e.total == 0 && e.allItems == [] && e.error == Some(message)
  {
  }

  /** Rows in row-id order have unique ids. */
  lemma IncreasingIdsUnique(items: seq<Item>)
    requires IdsIncreasing(items)
    ensures UniqueIds(items)
  {
  }

  /** Removing a row keeps the others in row-id order. */
  lemma RemoveAtIncreasing(items: seq<Item>, k: nat)
    requires k < |items| && IdsIncreasing(items)
    ensures IdsIncreasing(RemoveAt(items, k))
  {
    var rest := RemoveAt(items, k);
    forall i, j | 0 <= i < j < |rest| ensures rest[i].id < rest[j].id {
      var i', j' := if i < k then i else i + 1, if j < k then j else j + 1;
      assert rest[i] == items[i'] && rest[j] == items[j'];
    }
  }

  /** The new row goes after every existing one in row-id order. */
  lemma AddKeepsIdsIncreasing(items: seq<Item>, req: AddRequest, now: ImageHandler.DateTime, analyze: string -> Analysis)
    requires IdsIncreasing(items)
    requires NewItem(req, NextRowId(items), now, analyze).Ok?
    ensures IdsIncreasing(items + [NewItem(req, NextRowId(items), now, analyze).value])
  {
  }

  /** A new row never clashes with an existing id. */
  lemma AddKeepsIdsUnique(items: seq<Item>, req: AddRequest, now: ImageHandler.DateTime, analyze: string -> Analysis)
    requires UniqueIds(items)
    requires NewItem(req, NextRowId(items), now, analyze).Ok?
    ensures UniqueIds(items + [NewItem(req, NextRowId(items), now, analyze).value])
  {
  }
}
