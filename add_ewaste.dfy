/** The `AddEwaste` form (frontend/src/pages/AddEwaste.tsx): its state, the
    field setters wired to its inputs, and `submit`, which checks the form and
    builds the multipart `FormData` posted to /ewaste/add.  The HTTP request
    itself is a parameter: its outcome is given to `Submit`. */
module AddEwastePage {
  import opened Wrappers
  import Decimal

  /** `user?.id || ''`: the signed-in user's id, or the empty string. */
  datatype UserIdField = UserId(id: int) | Blank

  /** The form state; `isWorking` holds the strings 'true' or 'false'. */
  datatype Form = Form(userId: UserIdField, category: string, productName: string,
                       isWorking: string, price: string)

  /** A browser `File`, kept opaque. */
  datatype FileRef = FileRef(name: string)

  datatype FormValue = Text(text: string) | Blob(file: FileRef)

  /** The field names `submit` uses: 'user_id', 'category', 'product_name',
      'is_working', 'price' and 'image'. */
  datatype Field = UserIdKey | CategoryKey | ProductNameKey | IsWorkingKey | PriceKey | ImageKey {
    /** The position of the field among the appends of `submit`. */
    function Rank(): nat {
      match this
      case UserIdKey => 0
      case CategoryKey => 1
      case ProductNameKey => 2
      case IsWorkingKey => 3
      case PriceKey => 4
      case ImageKey => 5
    }
  }

  /** One `data.append(key, value)`. */
  datatype Entry = Entry(key: Field, value: FormValue)

  /** How `api.addEwaste` settled: fulfilled, or rejected with an error whose
      `message` may be missing. */
  datatype ApiOutcome = Sent | Failed(message: Option<string>)

  const ImageRequired: string := "Please attach an image for working devices."
  const AddFailed: string := "Failed to add"

  /** The initial state: category 'consumer', working, no name, no price, and
      the user's id unless it is missing or 0 (both falsy). */
  function InitialForm(user: Option<int>): (f: Form)
    ensures f.category == "consumer" && f.isWorking == "true"
    ensures f.productName == "" && f.price == ""
    ensures f.userId.UserId? <==> user.Some? && user.value != 0
    ensures f.userId.UserId? ==> f.userId.id == user.value
  {
    Form(if user.Some? && user.value != 0 then UserId(user.value) else Blank,
         "consumer", "", "true", "")
  }

  /** `String(form.user_id)`. */
  function UserIdText(u: UserIdField): (s: string)
    ensures u.Blank? <==> s == ""
  {
    match u
    case UserId(id) => Decimal.IntToString(id)
    case Blank => ""
  }

  /** The client-side check: a working device needs an image. */
  predicate NeedsImage(form: Form, file: Option<FileRef>)
    ensures file.Some? || form.isWorking != "true" ==> !NeedsImage(form, file)
    ensures file.None? && form.isWorking == "true" ==> NeedsImage(form, file)
  {
    form.isWorking == "true" && file.None?
  }

  /** `err?.message || 'Failed to add'`. */
  function ErrorMessage(message: Option<string>): (s: string)
    ensures s != ""
    ensures message.Some? && message.value != "" ==> s == message.value
    ensures message.None? || message.value == "" ==> s == AddFailed
  {
    if message.Some? && message.value != "" then message.value else AddFailed
  }

  /** The entries `submit` appends, in order: user_id, category, product_name
      when non-empty, is_working, price when working and non-empty, image when
      a file is selected. */
  function FormDataOf(form: Form, file: Option<FileRef>): (data: seq<Entry>)
    ensures 3 <= |data| <= 6 && (form.productName != "" ==> 4 <= |data|)
    ensures data[0] == Entry(UserIdKey, Text(UserIdText(form.userId)))
    ensures data[1] == Entry(CategoryKey, Text(form.category))
    ensures data[if form.productName == "" then 2 else 3] == Entry(IsWorkingKey, Text(form.isWorking))
  {
    [Entry(UserIdKey, Text(UserIdText(form.userId))), Entry(CategoryKey, Text(form.category))]
    + (if form.productName != "" then [Entry(ProductNameKey, Text(form.productName))] else [])
    + [Entry(IsWorkingKey, Text(form.isWorking))]
    + (if form.isWorking == "true" && form.price != "" then [Entry(PriceKey, Text(form.price))] else [])
    + (if file.Some? then [Entry(ImageKey, Blob(file.value))] else [])
  }

  function Keys(data: seq<Entry>): (keys: seq<Field>)
    ensures |keys| == |data|
  {
    if data == [] then [] else [data[0].key] + Keys(data[1..])
  }

  /** Which fields a submission carries: product_name exactly when it is
      non-empty, price exactly when the device works and a price was typed,
      image exactly when a file is selected. */
  lemma FormDataFields(form: Form, file: Option<FileRef>)
    ensures var keys := Keys(FormDataOf(form, file));
      && (ProductNameKey in keys <==> form.productName != "")
      && (PriceKey in keys <==> form.isWorking == "true" && form.price != "")
      && (ImageKey in keys <==> file.Some?)
  {
    var nk := if form.productName != "" then [ProductNameKey] else [];
    var pk := if form.isWorking == "true" && form.price != "" then [PriceKey] else [];
    var fk := if file.Some? then [ImageKey] else [];
    KeysOfFormData(form, file);
    var keys := [UserIdKey, CategoryKey] + nk + [IsWorkingKey] + pk + fk;
    assert ProductNameKey in keys <==> ProductNameKey in nk;
    assert PriceKey in keys <==> PriceKey in pk;
    assert ImageKey in keys <==> ImageKey in fk;
  }

  /** Each field comes after the fields appended before it. */
  predicate Ascending(keys: seq<Field>) {
    forall i :: 0 <= i < |keys| - 1 ==> keys[i].Rank() < keys[i + 1].Rank()
  }

  lemma AscendingAppend(a: seq<Field>, b: seq<Field>)
    requires Ascending(a) && Ascending(b)
    requires a != [] && b != [] ==> a[|a| - 1].Rank() < b[0].Rank()
    ensures Ascending(a + b)
  {
    var ab := a + b;
    forall i | 0 <= i < |ab| - 1 ensures ab[i].Rank() < ab[i + 1].Rank() {
      if i + 1 < |a| {
        assert ab[i] == a[i] && ab[i + 1] == a[i + 1];
      } else if i + 1 == |a| {
        assert ab[i] == a[|a| - 1] && ab[i + 1] == b[0];
      } else {
        assert ab[i] == b[i - |a|] && ab[i + 1] == b[i - |a| + 1];
      }
    }
  }

  /** The fields appear in the order of the appends, each at most once:
      user_id, category, product_name, is_working, price, image. */
  lemma FieldsInAppendOrder(form: Form, file: Option<FileRef>)
    ensures Ascending(Keys(FormDataOf(form, file)))
  {
    KeysOfFormData(form, file);
    PiecesAscending(form.productName != "", form.isWorking == "true" && form.price != "", file.Some?);
  }

  /** The key sequence for any choice of optional fields is ascending. */
  lemma PiecesAscending(hasName: bool, hasPrice: bool, hasFile: bool)
    ensures Ascending([UserIdKey, CategoryKey]
      + (if hasName then [ProductNameKey] else [])
      + [IsWorkingKey]
      + (if hasPrice then [PriceKey] else [])
      + (if hasFile then [ImageKey] else []))
  {
    var nk := if hasName then [ProductNameKey] else [];
    var pk := if hasPrice then [PriceKey] else [];
    var fk := if hasFile then [ImageKey] else [];
    AscendingAppend([UserIdKey, CategoryKey], nk);
    AscendingAppend([UserIdKey, CategoryKey] + nk, [IsWorkingKey]);
    AscendingAppend([UserIdKey, CategoryKey] + nk + [IsWorkingKey], pk);
    AscendingAppend([UserIdKey, CategoryKey] + nk + [IsWorkingKey] + pk, fk);
  }

  /** The keys of a submission in the order they are appended. */
  lemma KeysOfFormData(form: Form, file: Option<FileRef>)
    ensures Keys(FormDataOf(form, file)) ==
      [UserIdKey, CategoryKey]
      + (if form.productName != "" then [ProductNameKey] else [])
      + [IsWorkingKey]
      + (if form.isWorking == "true" && form.price != "" then [PriceKey] else [])
      + (if file.Some? then [ImageKey] else [])
  {
    var u, c, w := Entry(UserIdKey, Text(UserIdText(form.userId))), Entry(CategoryKey, Text(form.category)),
                   Entry(IsWorkingKey, Text(form.isWorking));
    var n := if form.productName != "" then [Entry(ProductNameKey, Text(form.productName))] else [];
    var p := if form.isWorking == "true" && form.price != "" then [Entry(PriceKey, Text(form.price))] else [];
    var f := if file.Some? then [Entry(ImageKey, Blob(file.value))] else [];
    var nk := if form.productName != "" then [ProductNameKey] else [];
    var pk := if form.isWorking == "true" && form.price != "" then [PriceKey] else [];
    var fk := if file.Some? then [ImageKey] else [];
    assert Keys([u, c]) == [UserIdKey, CategoryKey];
    assert Keys(n) == nk;
    assert Keys([w]) == [IsWorkingKey];
    assert Keys(p) == pk;
    assert Keys(f) == fk;
    KeysAppend([u, c], n);
    KeysAppend([u, c] + n, [w]);
    KeysAppend([u, c] + n + [w], p);
    KeysAppend([u, c] + n + [w] + p, f);
    assert FormDataOf(form, file) == [u, c] + n + [w] + p + f;
  }

  lemma {:induction false} KeysAppend(a: seq<Entry>, b: seq<Entry>)
    ensures Keys(a + b) == Keys(a) + Keys(b)
  {
    if a == [] {
      assert a + b == b;
    } else {
      var ab := a + b;
      assert ab[0] == a[0];
      assert ab[1..] == a[1..] + b;
      KeysAppend(a[1..], b);
      calc {
        Keys(ab);
        [a[0].key] + Keys(a[1..] + b);
        [a[0].key] + (Keys(a[1..]) + Keys(b));
        ([a[0].key] + Keys(a[1..])) + Keys(b);
        Keys(a) + Keys(b);
      }
    }
  }

  /** A submission that is not for a working device never carries a price. */
  lemma NonWorkingHasNoPrice(form: Form, file: Option<FileRef>)
    requires form.isWorking != "true"
    ensures forall i :: 0 <= i < |FormDataOf(form, file)| ==> FormDataOf(form, file)[i].key != PriceKey
  {
  }

  /** Every request `submit` sends for a working device carries its image. */
  lemma WorkingSubmissionHasImage(form: Form, file: Option<FileRef>)
    requires form.isWorking == "true" && !NeedsImage(form, file)
    ensures exists i :: 0 <= i < |FormDataOf(form, file)| && FormDataOf(form, file)[i] == Entry(ImageKey, Blob(file.value))
  {
    var data := FormDataOf(form, file);
    assert data[|data| - 1] == Entry(ImageKey, Blob(file.value));
  }

  class AddEwaste {
    var form: Form
    var file: Option<FileRef>
    var loading: bool
    var error: Option<string>

    /** `useState` initial values. */
    constructor (user: Option<int>)
      ensures form == InitialForm(user) && file == None && !loading && error == None
    {
      form := InitialForm(user);
      file := None;
      loading := false;
      error := None;
    }

    /** The category select (`consumer` or `utility`). */
    method SetCategory(category: string)
      modifies this
      ensures form == old(form).(category := category)
      ensures file == old(file) && loading == old(loading) && error == old(error)
    {
      form := form.(category := category);
    }

    method SetProductName(name: string)
      modifies this
      ensures form == old(form).(productName := name)
      ensures file == old(file) && loading == old(loading) && error == old(error)
    {
      form := form.(productName := name);
    }

    /** The "working" / "not working" buttons. */
    method SetWorking(working: bool)
      modifies this
      ensures form == old(form).(isWorking := if working then "true" else "false")
      ensures file == old(file) && loading == old(loading) && error == old(error)
    {
      form := form.(isWorking := if working then "true" else "false");
    }

    method SetPrice(price: string)
      modifies this
      ensures form == old(form).(price := price)
      ensures file == old(file) && loading == old(loading) && error == old(error)
    {
      form := form.(price := price);
    }

    /** The file input, `e.target.files?.[0] || null`: the first of the
        selected files, or none when nothing is selected. */
    method SetFile(files: seq<FileRef>)
      modifies this
      ensures file == if |files| > 0 then Some(files[0]) else None
      ensures form == old(form) && loading == old(loading) && error == old(error)
    {
      if |files| > 0 {
        file := Some(files[0]);
      } else {
        file := None;
      }
    }

    /** `submit`.  The submit button is disabled while loading, so a submission
        starts idle.  Returns the entries sent (none when the check refuses the
        form) and whether `onClose` was called. */
    method Submit(outcome: ApiOutcome, hasOnClose: bool) returns (sent: Option<seq<Entry>>, closed: bool)
      requires !loading
      modifies this
      ensures form == old(form) && file == old(file) && !loading
      ensures NeedsImage(form, file) ==> sent == None && error == Some(ImageRequired) && !closed
      ensures !NeedsImage(form, file) ==> sent == Some(FormDataOf(form, file))
      ensures !NeedsImage(form, file) && outcome.Sent? ==> error == None && closed == hasOnClose
      ensures !NeedsImage(form, file) && outcome.Failed? ==> error == Some(ErrorMessage(outcome.message)) && !closed
    {
      error := None;
      closed := false;
      if form.isWorking == "true" && file.None? {
        error := Some(ImageRequired);
        return None, false;
      }
      loading := true;
      var data: seq<Entry> := [];
      data := data + [Entry(UserIdKey, Text(UserIdText(form.userId)))];
      data := data + [Entry(CategoryKey, Text(form.category))];
      if form.productName != "" {
        data := data + [Entry(ProductNameKey, Text(form.productName))];
      }
      data := data + [Entry(IsWorkingKey, Text(form.isWorking))];
      if form.isWorking == "true" && form.price != "" {
        data := data + [Entry(PriceKey, Text(form.price))];
      }
      if file.Some? {
        data := data + [Entry(ImageKey, Blob(file.value))];
      }
      assert data == FormDataOf(form, file);
      sent := Some(data);
      match outcome {
        case Sent =>
          closed := hasOnClose;
        case Failed(message) =>
          error := Some(ErrorMessage(message));
      }
      loading := false;
    }
  }
}
