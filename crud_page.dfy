/**
 * The generic CRUD page: dotted-path value resolution, the labels of foreign-key
 * options, the list query, the numeric coercion of the form before it is sent,
 * and the page state that the search, filter, edit and submit handlers update.
 */
module CrudPage {
  import opened Wrappers
  import opened JsValues
  import Text
  import opened Records
  import ApiClient

  datatype FieldType = TextField | EmailField | NumberField | SelectField

  /** One declared form field; `model` names the related resource of a select. */
  datatype Field = Field(
    name: string,
    caption: string,
    kind: FieldType,
    model: Option<string>,
    displayKey: Option<string>,
    createLink: Option<string>)

  // ---------------------------------------------------------------- getValue

  /**
   * The `reduce` over the path segments, left to right, each step being
   * `o ? o[segment] : undefined`: no segments leave the start value, and a
   * falsy start yields undefined whatever segments follow.
   */
  function Walk(o: JsValue, segments: seq<string>): (r: JsValue)
    ensures |segments| == 0 ==> r == o
    ensures |segments| > 0 && !Truthy(o) ==> r == Undefined
    decreases |segments|
  {
    if |segments| == 0 then o
    else
      var next := if Truthy(o) then Member(o, segments[0]) else Undefined;
      Walk(next, segments[1..])
  }

  /**
   * `getValue(obj, path)`: never fails; the empty path gives undefined, a path
   * without dots reads one property of a truthy object.
   */
  function GetValue(obj: JsValue, path: string): (r: JsValue)
    ensures path == "" ==> r == Undefined
    ensures path != "" && '.' !in path && Truthy(obj) ==> r == Member(obj, path)
    ensures path != "" && '.' !in path && !Truthy(obj) ==> r == Undefined
  {
    if path == "" then Undefined
    else if '.' !in path then
      Text.SplitNoSeparator(path, '.');
      WalkOne(obj, path);
      Walk(obj, Text.Split(path, '.'))
    else
      Walk(obj, Text.Split(path, '.'))
  }

  lemma WalkOne(o: JsValue, segment: string)
    ensures Truthy(o) ==> Walk(o, [segment]) == Member(o, segment)
    ensures !Truthy(o) ==> Walk(o, [segment]) == Undefined
  {
    assert [segment][1..] == [];
  }

  lemma {:induction false} WalkConcat(o: JsValue, a: seq<string>, b: seq<string>)
    ensures Walk(o, a + b) == Walk(Walk(o, a), b)
    decreases |a|
  {
    if |a| > 0 {
      assert (a + b)[0] == a[0] && (a + b)[1..] == a[1..] + b;
      WalkConcat(if Truthy(o) then Member(o, a[0]) else Undefined, a[1..], b);
    } else {
      assert a + b == b;
    }
  }

  /**
   * If the walk meets a falsy value (undefined, null, false, 0, NaN or "")
   * before the last segment, the result is undefined.
   */
  lemma GetValueShortCircuits(obj: JsValue, path: string, k: nat)
    requires path != "" && k < |Text.Split(path, '.')|
    requires !Truthy(Walk(obj, Text.Split(path, '.')[..k]))
    ensures GetValue(obj, path) == Undefined
  {
    var segments := Text.Split(path, '.');
    assert segments == segments[..k] + segments[k..];
    WalkConcat(obj, segments[..k], segments[k..]);
  }

  /** Resolving "p.q" is resolving q in the value found at p. */
  lemma GetValueCompose(obj: JsValue, p: string, q: string)
    requires p != "" && q != ""
    ensures GetValue(obj, p + "." + q) == GetValue(GetValue(obj, p), q)
  {
    Text.SplitAround(p, q, '.');
    WalkConcat(obj, Text.Split(p, '.'), Text.Split(q, '.'));
  }

  // ---------------------------------------------------------- option labels

  /** `field.displayKey?.replace(field.name + '.', '') || 'name'`. */
  function LabelKey(field: Field): (key: string)
    ensures key != ""
    ensures field.displayKey.None? || field.displayKey == Some("") ==> key == "name"
    ensures field.displayKey == Some(field.name + ".") ==> key == "name"
    ensures field.displayKey.Some? ==>
      var d := field.displayKey.value;
      d != "" && Text.IndexOf(d, field.name + ".").None? ==> key == d
  {
    Text.ReplaceLeadingPattern(field.name + ".", "");
    assert field.name + "." + "" == field.name + ".";
    var stripped := match field.displayKey
      case None => ""
      case Some(d) => Text.ReplaceFirst(d, field.name + ".", "");
    if stripped == "" then "name" else stripped
  }

  /** A display key that starts with the field's own name and a dot is looked up without that prefix. */
  lemma LabelKeyStripsOwnName(field: Field, rest: string)
    requires rest != "" && field.displayKey == Some(field.name + "." + rest)
    ensures LabelKey(field) == rest
  {
    Text.ReplaceLeadingPattern(field.name + ".", rest);
  }

  /** An entry of a combobox: what it shows and the value it selects. */
  datatype ComboOption = ComboOption(caption: JsValue, value: string)

  /**
   * The option built from one record of the related resource (`opt.name` would
   * throw on null): its label is the first truthy of the value at the label key,
   * `name`, `label`, and finally the id's text; its value is always the id's text.
   */
  function OptionFor(opt: JsValue, field: Field): (o: ComboOption)
    requires !Nullish(opt)
    ensures o.value == ToText(Member(opt, "id"))
    ensures Truthy(GetValue(opt, LabelKey(field))) ==> o.caption == GetValue(opt, LabelKey(field))
    ensures !Truthy(GetValue(opt, LabelKey(field))) && Truthy(Member(opt, "name")) ==>
      o.caption == Member(opt, "name")
    ensures !Truthy(GetValue(opt, LabelKey(field))) && !Truthy(Member(opt, "name")) && Truthy(Member(opt, "label")) ==>
      o.caption == Member(opt, "label")
    ensures !Truthy(GetValue(opt, LabelKey(field))) && !Truthy(Member(opt, "name")) && !Truthy(Member(opt, "label")) ==>
      o.caption == Str(ToText(Member(opt, "id")))
  {
    var id := ToText(Member(opt, "id"));
    ComboOption(
      Or(Or(Or(GetValue(opt, LabelKey(field)), Member(opt, "name")), Member(opt, "label")), Str(id)),
      id)
  }

  /** The materials page's category select: field "categoryId", display key "category.name". */
  const CategoryField := Field("categoryId", "Category", SelectField, Some("material-categories"),
                               Some("category.name"), Some("/material-categories"))

  /** "categoryId." does not occur in "category.name", so the display key is used as it is. */
  lemma CategoryKeyKept()
    ensures LabelKey(CategoryField) == "category.name"
  {
    CategoryPatternAbsent();
    assert CategoryField.name + "." == "categoryId.";
    assert CategoryField.displayKey == Some("category.name");
  }

  lemma CategoryPatternAbsent()
    ensures Text.IndexOf("category.name", "categoryId.").None?
  {
    var d, pat := "category.name", "categoryId.";
    forall j: nat
      ensures !Text.OccursAt(d, pat, j)
    {
      if j + |pat| <= |d| {
        var piece := d[j..j + |pat|];
        assert pat[0] == 'c' && pat[8] == 'I';
        if j == 0 {
          assert piece[8] == d[8] == '.';
        } else {
          assert piece[0] == d[j];
          assert d[1] == 'a' && d[2] == 't';
        }
      }
    }
  }

  /**
   * The category records have no `category` of their own, so each option of
   * that select falls back to the record's own `name`.
   */
  lemma CategoryOptionLabel(opt: JsValue, name: string)
    requires opt.Obj? && "category" !in opt.props && name != ""
    requires Member(opt, "name") == Str(name)
    ensures OptionFor(opt, CategoryField).caption == Str(name)
  {
    CategoryKeyKept();
    CategoryPathMissing(opt);
    assert Truthy(Member(opt, "name"));
  }

  lemma CategoryPathMissing(opt: JsValue)
    requires opt.Obj? && "category" !in opt.props
    ensures GetValue(opt, "category.name") == Undefined
  {
    CategoryPathText();
    GetValueCompose(opt, "category", "name");
    CategoryMemberMissing(opt);
    NameOfUndefined();
  }

  lemma CategoryPathText()
    ensures "category" + "." + "name" == "category.name"
  {
  }

  /** Reading `category` off a record without it gives undefined. */
  lemma CategoryMemberMissing(opt: JsValue)
    requires opt.Obj? && "category" !in opt.props
    ensures GetValue(opt, "category") == Undefined
  {
    assert '.' !in "category";
    assert Member(opt, "category") == Undefined;
  }

  /** Reading `name` off undefined gives undefined, without failing. */
  lemma NameOfUndefined()
    ensures GetValue(Undefined, "name") == Undefined
  {
    assert '.' !in "name";
  }

  // ------------------------------------------------------------ list query

  /**
   * The params of `fetchData`: `search` first when the text is non-empty,
   * then every filter, a filter named `search` overriding the text.
   */
  function QueryParams(search: string, filters: Record<string>): (p: Record<string>)
    requires UniqueKeys(filters)
    ensures UniqueKeys(p)
    ensures Lookup(p, "search") ==
      if HasKey(filters, "search") then Lookup(filters, "search")
      else if search != "" then Some(search) else None
    ensures forall k :: k != "search" ==> Lookup(p, k) == Lookup(filters, k)
    ensures search != "" ==> |p| > 0 && p[0].0 == "search"
    ensures search == "" ==> p == filters
    ensures search != "" && !HasKey(filters, "search") ==> p == [("search", search)] + filters
    ensures search != "" && HasKey(filters, "search") ==>
      p == [("search", Lookup(filters, "search").value)] + Delete(filters, "search")
  {
    SearchLookups(search, filters);
    if search == "" then
      MergeFresh([], filters);
      Merge(SearchHead(search), filters)
    else
      SearchFirst(search, filters);
      Merge(SearchHead(search), filters)
  }

  /** The object the filters are spread onto: `{ search }` for non-empty text, `{}` otherwise. */
  function SearchHead(search: string): Record<string>
  {
    if search != "" then [("search", search)] else []
  }

  /** What each key holds once the filters are spread onto the search head. */
  lemma SearchLookups(search: string, filters: Record<string>)
    requires UniqueKeys(filters)
    ensures UniqueKeys(Merge(SearchHead(search), filters))
    ensures Lookup(Merge(SearchHead(search), filters), "search") ==
      if HasKey(filters, "search") then Lookup(filters, "search")
      else if search != "" then Some(search) else None
    ensures forall k :: k != "search" ==> Lookup(Merge(SearchHead(search), filters), k) == Lookup(filters, k)
  {
    var head, p := SearchHead(search), Merge(SearchHead(search), filters);
    assert Keys(head) == if search != "" then ["search"] else [];
    forall k
      ensures Lookup(p, k) == if HasKey(filters, k) then Lookup(filters, k) else Lookup(head, k)
    {
      if HasKey(filters, k) {
        assert Lookup(filters, k) == Some(LastValue(filters, k));
      }
    }
    forall k | k != "search"
      ensures Lookup(p, k) == Lookup(filters, k)
    {
      assert !HasKey(head, k);
    }
  }

  /** With search text, `search` leads and the other filters follow in their order. */
  lemma SearchFirst(search: string, filters: Record<string>)
    requires UniqueKeys(filters) && search != ""
    ensures |Merge(SearchHead(search), filters)| > 0 && Merge(SearchHead(search), filters)[0].0 == "search"
    ensures !HasKey(filters, "search") ==> Merge(SearchHead(search), filters) == [("search", search)] + filters
    ensures HasKey(filters, "search") ==>
      Merge(SearchHead(search), filters) == [("search", Lookup(filters, "search").value)] + Delete(filters, "search")
  {
    var p := Merge(SearchHead(search), filters);
    assert SearchHead(search) == [("search", search)] + [];
    MergeOnto("search", search, [], filters);
    if HasKey(filters, "search") {
      var v := LastValue(filters, "search");
      assert Lookup(filters, "search") == Some(v);
      assert p == [("search", v)] + [] + Delete(filters, "search");
      DropEmpty([("search", v)], Delete(filters, "search"));
    } else {
      DeleteAbsent(filters, "search");
      assert p == [("search", search)] + [] + filters;
      DropEmpty([("search", search)], filters);
    }
  }

  lemma DropEmpty<T>(a: seq<T>, b: seq<T>)
    ensures a + [] + b == a + b
  {
  }

  // ------------------------------------------------------- numeric coercion

  /** What the form reads and writes: the text of an input, or a number after coercion. */
  datatype FormValue = FormText(text: string) | FormNumber(number: JsNumber)

  predicate Numeric(f: Field)
  {
    f.kind == NumberField || f.kind == SelectField
  }

  /** Some field declared `number` or `select` carries the name k. */
  predicate CoercedBy(fields: seq<Field>, k: string)
  {
    exists i :: 0 <= i < |fields| && Numeric(fields[i]) && fields[i].name == k
  }

  /** `Number(payload[name])`: text is parsed, a number is kept, a missing entry is NaN. */
  function Coerce(v: Option<FormValue>): JsNumber
  {
    match v
    case None => NaN
    case Some(FormText(s)) => ParseNumber(s)
    case Some(FormNumber(n)) => n
  }

  /** The form's entries as text values, in form order. */
  function AsText(form: Record<string>): (r: Record<FormValue>)
    ensures |r| == |form| && forall i :: 0 <= i < |form| ==> r[i] == (form[i].0, FormText(form[i].1))
  {
    seq(|form|, i requires 0 <= i < |form| => (form[i].0, FormText(form[i].1)))
  }

  /**
   * `Object.fromEntries(formData.entries())`: the entries are assigned in
   * order, so a repeated input name keeps its first place and its last value;
   * for distinct names the payload is the form's entries, as text, in order.
   */
  function FromEntries(form: Record<string>): (r: Record<FormValue>)
    ensures UniqueKeys(r)
    ensures forall k :: Lookup(r, k) == if HasKey(form, k) then Some(FormText(LastValue(form, k))) else None
    ensures UniqueKeys(form) ==> |r| == |form| && forall i :: 0 <= i < |form| ==> r[i] == (form[i].0, FormText(form[i].1))
  {
    AsTextLast(form);
    if UniqueKeys(form) then
      MergeFresh([], AsText(form));
      Merge([], AsText(form))
    else
      Merge([], AsText(form))
  }

  /** Converting to text keeps the keys and maps each key's last value. */
  lemma {:induction false} AsTextLast(form: Record<string>)
    ensures Keys(AsText(form)) == Keys(form)
    ensures forall k :: HasKey(form, k) ==> LastValue(AsText(form), k) == FormText(LastValue(form, k))
    decreases |form|
  {
    var r := AsText(form);
    if |form| > 0 {
      AsTextLast(form[1..]);
      assert r[1..] == AsText(form[1..]);
      KeysCons(form);
      KeysCons(r);
    }
  }

  lemma CoercedByStep(fields: seq<Field>, n: nat)
    requires n < |fields|
    ensures forall k :: CoercedBy(fields[..n + 1], k) <==>
      CoercedBy(fields[..n], k) || (Numeric(fields[n]) && fields[n].name == k)
  {
    var f := fields[n];
    assert fields[..n + 1] == fields[..n] + [f];
    forall k
      ensures CoercedBy(fields[..n + 1], k) ==> CoercedBy(fields[..n], k) || (Numeric(f) && f.name == k)
    {
      if CoercedBy(fields[..n + 1], k) {
        var i :| 0 <= i < n + 1 && Numeric(fields[..n + 1][i]) && fields[..n + 1][i].name == k;
        if i < n { assert fields[..n][i] == fields[..n + 1][i]; }
      }
    }
    forall k
      ensures CoercedBy(fields[..n], k) ==> CoercedBy(fields[..n + 1], k)
    {
      if CoercedBy(fields[..n], k) {
        var i :| 0 <= i < n && Numeric(fields[..n][i]) && fields[..n][i].name == k;
        assert fields[..n + 1][i] == fields[..n][i];
      }
    }
    assert fields[..n + 1][n] == f;
  }

  /**
   * The `fields.forEach` of `handleSubmit`: every field declared `number` or
   * `select` is replaced by its numeric coercion (added when the form lacks
   * it), every other entry keeps its text; existing entries keep their place.
   */
  method CoercePayload(payload: Record<FormValue>, fields: seq<Field>) returns (r: Record<FormValue>)
    requires UniqueKeys(payload)
    ensures UniqueKeys(r)
    ensures forall k :: (Lookup(r, k) ==
      if CoercedBy(fields, k) then Some(FormNumber(Coerce(Lookup(payload, k)))) else Lookup(payload, k))
    ensures |r| >= |payload| && forall i :: 0 <= i < |payload| ==> r[i].0 == payload[i].0
  {
    r := payload;
    var n := 0;
    while n < |fields|
      invariant 0 <= n <= |fields|
      invariant UniqueKeys(r)
      invariant forall k :: CoercedAt(r, payload, fields[..n], k)
      invariant |r| >= |payload| && forall i :: 0 <= i < |payload| ==> r[i].0 == payload[i].0
    {
      CoerceStep(r, payload, fields, n, fields[..n + 1]);
      r := CoerceField(r, fields[n]);
      n := n + 1;
    }
    assert fields[..n] == fields;
    forall k
      ensures Lookup(r, k) ==
        if CoercedBy(fields, k) then Some(FormNumber(Coerce(Lookup(payload, k)))) else Lookup(payload, k)
    {
      assert CoercedAt(r, payload, fields[..n], k);
    }
  }

  /** After the fields `fields` have been processed, key k holds what the loop promises for it. */
  predicate CoercedAt(r: Record<FormValue>, payload: Record<FormValue>, fields: seq<Field>, k: string)
  {
    Lookup(r, k) == if CoercedBy(fields, k) then Some(FormNumber(Coerce(Lookup(payload, k)))) else Lookup(payload, k)
  }

  /** `payload[f.name] = Number(payload[f.name])` when f is a number or select field. */
  function CoerceField(r: Record<FormValue>, f: Field): Record<FormValue>
  {
    if Numeric(f) then Set(r, f.name, FormNumber(Coerce(Lookup(r, f.name)))) else r
  }

  /** One turn of the coercion loop: the next field's name joins the coerced keys. */
  lemma CoerceStep(r: Record<FormValue>, payload: Record<FormValue>, fields: seq<Field>, n: nat, next: seq<Field>)
    requires n < |fields| && next == fields[..n + 1] && UniqueKeys(r)
    requires forall k :: CoercedAt(r, payload, fields[..n], k)
    ensures var r' := CoerceField(r, fields[n]);
      UniqueKeys(r') && |r'| >= |r| && (forall i :: 0 <= i < |r| ==> r'[i].0 == r[i].0) &&
      forall k :: CoercedAt(r', payload, next, k)
  {
    var f := fields[n];
    CoercedByStep(fields, n);
    if Numeric(f) {
      var v := FormNumber(Coerce(Lookup(r, f.name)));
      assert CoercedAt(r, payload, fields[..n], f.name);
      assert v == FormNumber(Coerce(Lookup(payload, f.name)));
      SetUnique(r, f.name, v);
      SetKeepsPrefix(r, f.name, v);
      var r' := Set(r, f.name, v);
      forall k
        ensures CoercedAt(r', payload, next, k)
      {
        assert CoercedAt(r, payload, fields[..n], k);
        if k != f.name {
          assert Lookup(r', k) == Lookup(r, k);
        }
      }
    } else {
      forall k
        ensures CoercedAt(r, payload, next, k)
      {
        assert CoercedAt(r, payload, fields[..n], k);
      }
    }
  }

  /** `error.message || \`Failed to ${action} ${title.toLowerCase()}\``. */
  function Notice(message: string, action: string, title: string): (text: string)
    ensures text != ""
    ensures message != "" ==> text == message
    ensures message == "" ==> text == "Failed to " + action + " " + Text.LowerAscii(title)
    ensures message == "" ==> |text| == |"Failed to "| + |action| + 1 + |title|
    ensures message == "" ==> forall i :: |text| - |title| <= i < |text| ==> !('A' <= text[i] <= 'Z')
  {
    if message != "" then message else "Failed to " + action + " " + Text.LowerAscii(title)
  }

  // -------------------------------------------------------------- page state

  /** The state a CRUD page keeps between handler calls. */
  class CrudPageState {
    const title: string
    const model: string
    const fields: seq<Field>
    var data: JsValue
    var isOpen: bool
    var filterOpen: bool
    var editingItem: JsValue
    var search: string
    var filters: Record<string>

    ghost predicate Valid()
      reads this
    {
      UniqueKeys(filters)
    }

    constructor(title: string, model: string, fields: seq<Field>)
      ensures Valid()
      ensures this.title == title && this.model == model && this.fields == fields
      ensures data == Arr([]) && !isOpen && !filterOpen && editingItem == Null
      ensures search == "" && filters == []
    {
      this.title := title;
      this.model := model;
      this.fields := fields;
      data := Arr([]);
      isOpen := false;
      filterOpen := false;
      editingItem := Null;
      search := "";
      filters := [];
    }

    /** `handleSearch`. */
    method HandleSearch(text: string)
      modifies this`search
      ensures search == text
    {
      search := text;
    }

    /**
     * `handleFilterChange`: a non-empty value sets the key, an empty one
     * removes it; every other filter is left as it was.
     */
    method HandleFilterChange(name: string, value: string)
      requires Valid()
      modifies this`filters
      ensures Valid()
      ensures value != "" ==> Lookup(filters, name) == Some(value) && filters == Set(old(filters), name, value)
      ensures value == "" ==> !HasKey(filters, name) && filters == Delete(old(filters), name)
      ensures forall k :: k != name ==> Lookup(filters, k) == Lookup(old(filters), k)
    {
      var newFilters := Set(filters, name, value);
      SetUnique(filters, name, value);
      if value == "" {
        DeleteAfterSet(filters, name, value);
        DeleteUnique(newFilters, name);
        newFilters := Delete(newFilters, name);
      }
      filters := newFilters;
    }

    /** `applyFilters`: only closes the filter sheet. */
    method ApplyFilters()
      modifies this`filterOpen
      ensures !filterOpen
    {
      filterOpen := false;
    }

    /** `resetFilters`: no filter remains and the sheet closes. */
    method ResetFilters()
      modifies this`filters, this`filterOpen
      ensures Valid() && !filterOpen
      ensures filters == [] && forall k :: !HasKey(filters, k)
    {
      filters := [];
      filterOpen := false;
    }

    /** The edit button of a row: the row becomes the edited item and the dialog opens. */
    method Edit(item: JsValue)
      modifies this`editingItem, this`isOpen
      ensures editingItem == item && isOpen
    {
      editingItem := item;
      isOpen := true;
    }

    /** The dialog's `onOpenChange`: closing it also forgets the edited item. */
    method OpenChange(open: bool)
      modifies this`isOpen, this`editingItem
      ensures isOpen == open
      ensures editingItem == if open then old(editingItem) else Null
    {
      isOpen := open;
      if !open {
        editingItem := Null;
      }
    }

    /**
     * The request `fetchData(search, filters)` issues: a GET of the model's
     * collection, always with a params object, so always a '?' and then the
     * query of the search text and the filters.
     */
    function ListRequest(enc: string -> string): (r: ApiClient.Request<JsValue>)
      reads this
      requires Valid()
      ensures r.verb == ApiClient.GET && r.body == None
      ensures |r.endpoint| > |model| + 1 && r.endpoint[..|model| + 2] == ApiClient.CollectionPath(model) + "?"
      ensures r.endpoint[|model| + 2..] == ApiClient.QueryString(QueryParams(search, filters), enc)
    {
      ApiClient.GetAll(model, Some(QueryParams(search, filters)), enc)
    }

    /**
     * The rest of `fetchData`: a successful reply replaces the rows with its
     * `data` (or an empty list); a failed one keeps the rows and reports.
     */
    method ReceiveList(reply: JsValue) returns (err: Option<string>)
      requires ApiClient.IsEnvelope(reply)
      modifies this`data
      ensures ApiClient.Settle(reply).Success? ==>
        err == None && data == if Truthy(Member(reply, "data")) then Member(reply, "data") else Arr([])
      ensures ApiClient.Settle(reply).Failure? ==>
        data == old(data) && err == Some(Notice(ApiClient.Settle(reply).error, "fetch", title))
    {
      match ApiClient.Settle(reply)
      case Success(result) =>
        data := Or(Member(result, "data"), Arr([]));
        err := None;
      case Failure(message) =>
        err := Some(Notice(message, "fetch", title));
    }

    /**
     * `handleSubmit`: the form is coerced, sent as an update when the edited
     * item has a truthy id and as a create otherwise; success closes the dialog,
     * clears the edited item and refreshes the list, failure changes nothing.
     */
    method HandleSubmit(form: Record<string>, reply: JsValue, enc: string -> string)
      returns (sent: ApiClient.Request<Record<FormValue>>, err: Option<string>, refresh: Option<ApiClient.Request<JsValue>>)
      requires Valid() && ApiClient.IsEnvelope(reply)
      modifies this`isOpen, this`editingItem
      ensures Valid()
      ensures sent.body.Some? && UniqueKeys(sent.body.value)
      ensures forall k :: (Lookup(sent.body.value, k) ==
        if CoercedBy(fields, k) then Some(FormNumber(Coerce(Lookup(FromEntries(form), k))))
        else Lookup(FromEntries(form), k))
      ensures Truthy(Member(old(editingItem), "id")) ==>
        sent.verb == ApiClient.PATCH && sent.endpoint == ApiClient.ItemPath(model, Member(old(editingItem), "id"))
      ensures !Truthy(Member(old(editingItem), "id")) ==>
        sent.verb == ApiClient.POST && sent.endpoint == ApiClient.CollectionPath(model)
      ensures ApiClient.Settle(reply).Success? ==>
        !isOpen && editingItem == Null && err == None && refresh == Some(ListRequest(enc))
      ensures ApiClient.Settle(reply).Failure? ==>
        isOpen == old(isOpen) && editingItem == old(editingItem) && refresh == None &&
        err == Some(Notice(ApiClient.Settle(reply).error, "save", title))
    {
      var entries := FromEntries(form);
      var payload := CoercePayload(entries, fields);
      var id := Member(editingItem, "id");
      if Truthy(id) {
        sent := ApiClient.Update(model, id, payload);
      } else {
        sent := ApiClient.Create(model, payload);
      }
      match ApiClient.Settle(reply)
      case Success(_) =>
        isOpen := false;
        editingItem := Null;
        err := None;
        refresh := Some(ListRequest(enc));
      case Failure(message) =>
        err := Some(Notice(message, "save", title));
        refresh := None;
    }
  }
}
