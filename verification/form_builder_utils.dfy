/** The client-side operation applier of the form builder. It works on a
    shallow copy of the form whose `fields` array is SHARED with the caller:
    `addField` edits that array in place (upsert by id, or `splice` at the
    requested location), `deleteField` replaces it with a filtered copy.
    Unlike the backend reconciler it never renumbers other fields. */
module FormBuilderUtils {
  import opened Wrappers

  /** A field as the client holds it: `id` and `_id` may each be missing,
      `kind` is the `type` key. */
  datatype ClientField = ClientField(
    id: Option<string>,
    storedId: Option<string>,
    kind: string,
    fieldLabel: string,
    required: bool,
    options: Option<seq<string>>,
    location: int)

  /** The `field` payload of an `add_field` operation; the kind may arrive as
      `fieldType` or as `type`, and `location` only counts when it is a number. */
  datatype OpField = OpField(
    id: string,
    fieldType: Option<string>,
    kind: Option<string>,
    fieldLabel: string,
    required: bool,
    options: Option<seq<string>>,
    location: Option<int>)

  /** An operation as the client receives it; `OtherOp` is any other `type`. */
  datatype ClientOperation =
    | SetTitle(title: string)
    | SetDescription(description: string)
    | AddFieldOp(field: OpField)
    | DeleteFieldOp(id: string, index: Option<int>)
    | OtherOp(tag: string)

  /** The form object a caller passes in; a `None` attribute is a missing key. */
  datatype FormInput = FormInput(
    title: Option<string>,
    description: Option<string>,
    fields: Option<FieldArray>)

  /** The identifier the client matches fields on: `id`, or `_id` when `id`
      is missing or empty (`existing.id || existing._id`). */
  function Key(f: ClientField): (r: Option<string>)
    ensures f.id.Some? && f.id.value != "" ==> r == f.id
    ensures f.id.None? || f.id == Some("") ==> r == f.storedId
  {
    if f.id.Some? && f.id.value != "" then f.id else f.storedId
  }

  /** `findIndex`: the first position whose key is `id`, or -1. */
  function FirstMatch(items: seq<ClientField>, id: string): (r: int)
    ensures -1 <= r < |items|
    ensures r >= 0 ==> Key(items[r]) == Some(id)
    ensures forall j :: 0 <= j < |items| && (r < 0 || j < r) ==> Key(items[j]) != Some(id)
  {
    if items == [] then -1
    else if Key(items[0]) == Some(id) then 0
    else
      var r := FirstMatch(items[1..], id);
      if r < 0 then -1 else r + 1
  }

  /** Where `splice(start, 0, x)` inserts in an array of length `len`: a
      negative start counts from the end, and both ends are clamped. */
  function SpliceIndex(len: nat, start: int): (k: nat)
    ensures k <= len
    ensures 0 <= start <= len ==> k == start
    ensures start > len ==> k == len
    ensures start < 0 ==> k == if len + start < 0 then 0 else len + start
  {
    if start < 0 then (if len + start < 0 then 0 else len + start)
    else if start > len then len else start
  }

  /** `field.fieldType ?? field.type`. */
  function KindOf(field: OpField): (r: Option<string>)
    ensures r.Some? <==> field.fieldType.Some? || field.kind.Some?
    ensures field.fieldType.Some? ==> r == field.fieldType
    ensures field.fieldType.None? ==> r == field.kind
  {
    if field.fieldType.Some? then field.fieldType else field.kind
  }

  /** The entry `addField` stores, or `None` for a kind it does not know. */
  function BuildField(field: OpField, insertIndex: int): (r: Option<ClientField>)
    ensures r.Some? <==> KindOf(field) in {Some("text"), Some("para"), Some("radio"), Some("checkbox")}
    ensures r.Some? ==>
      && r.value.id == Some(field.id) && r.value.storedId == None
      && Some(r.value.kind) == KindOf(field) && r.value.fieldLabel == field.fieldLabel
      && r.value.required == field.required && r.value.location == insertIndex
    ensures r.Some? && r.value.kind in {"text", "para"} ==> r.value.options == None
    ensures r.Some? && r.value.kind in {"radio", "checkbox"} ==>
      r.value.options == Some(field.options.GetOr([]))
  {
    var kind := KindOf(field);
    if kind == Some("text") || kind == Some("para") then
      Some(ClientField(Some(field.id), None, kind.value, field.fieldLabel, field.required, None, insertIndex))
    else if kind == Some("radio") || kind == Some("checkbox") then
      Some(ClientField(Some(field.id), None, kind.value, field.fieldLabel, field.required,
        Some(field.options.GetOr([])), insertIndex))
    else None
  }

  /** The location `addField` uses: the field's own when it is a number,
      otherwise the end of the array. */
  function InsertIndex(items: seq<ClientField>, field: OpField): (r: int)
    ensures field.location.Some? ==> r == field.location.value
    ensures field.location.None? ==> SpliceIndex(|items|, r) == |items|
  {
    if field.location.Some? then field.location.value else |items|
  }

  /** The array after `addField`. */
  function AddedFields(items: seq<ClientField>, field: OpField): (r: seq<ClientField>)
    ensures BuildField(field, InsertIndex(items, field)).None? ==> r == items
    ensures |r| == |items| + 1 <==>
      BuildField(field, InsertIndex(items, field)).Some? && FirstMatch(items, field.id) < 0
    ensures |r| == |items| || |r| == |items| + 1
    ensures BuildField(field, InsertIndex(items, field)).Some? ==>
      BuildField(field, InsertIndex(items, field)).value in r
  {
    var insertIndex := InsertIndex(items, field);
    var existing := FirstMatch(items, field.id);
    match BuildField(field, insertIndex)
    case None => items
    case Some(entry) =>
      if existing >= 0 then
        var r := items[existing := entry];
        assert r[existing] == entry;
        r
      else
        var k := SpliceIndex(|items|, insertIndex);
        var r := items[..k] + [entry] + items[k..];
        assert r[k] == entry;
        r
  }

  /** The fields whose key is not `id` (`filter(f => (f.id || f._id) !== id)`). */
  function WithoutKey(items: seq<ClientField>, id: string): (r: seq<ClientField>)
    ensures |r| <= |items|
    ensures forall j :: 0 <= j < |r| ==> Key(r[j]) != Some(id)
    ensures forall j :: 0 <= j < |items| && Key(items[j]) != Some(id) ==> items[j] in r
    ensures forall j :: 0 <= j < |r| ==> r[j] in items
  {
    if items == [] then []
    else
      var rest := WithoutKey(items[..|items| - 1], id);
      if Key(items[|items| - 1]) != Some(id) then rest + [items[|items| - 1]] else rest
  }

  /** The positions whose key is not `id`, ascending: the entries the filter keeps. */
  function KeptKeyIndices(items: seq<ClientField>, id: string): (idx: seq<int>)
    ensures forall k :: 0 <= k < |idx| ==> 0 <= idx[k] < |items| && Key(items[idx[k]]) != Some(id)
    ensures forall k, l :: 0 <= k < l < |idx| ==> idx[k] < idx[l]
    ensures forall i :: 0 <= i < |items| && Key(items[i]) != Some(id) ==> i in idx
  {
    if items == [] then []
    else
      var rest := KeptKeyIndices(items[..|items| - 1], id);
      if Key(items[|items| - 1]) != Some(id) then rest + [|items| - 1] else rest
  }

  /** The filter keeps exactly the entries at `KeptKeyIndices`, in that order,
      so it keeps both the order and the repetitions of the survivors. */
  lemma {:induction false} WithoutKeyKeepsIndices(items: seq<ClientField>, id: string)
    ensures |WithoutKey(items, id)| == |KeptKeyIndices(items, id)|
    ensures forall k :: 0 <= k < |KeptKeyIndices(items, id)| ==>
      WithoutKey(items, id)[k] == items[KeptKeyIndices(items, id)[k]]
  {
    if items != [] {
      var n := |items| - 1;
      WithoutKeyKeepsIndices(items[..n], id);
      KeepsIndicesStep(items, id);
    }
  }

  /** The inductive step: the last entry is appended to both or to neither. */
  lemma KeepsIndicesStep(items: seq<ClientField>, id: string)
    requires items != []
    requires var init := items[..|items| - 1];
      && |WithoutKey(init, id)| == |KeptKeyIndices(init, id)|
      && forall k :: 0 <= k < |KeptKeyIndices(init, id)| ==>
        WithoutKey(init, id)[k] == init[KeptKeyIndices(init, id)[k]]
    ensures |WithoutKey(items, id)| == |KeptKeyIndices(items, id)|
    ensures forall k :: 0 <= k < |KeptKeyIndices(items, id)| ==>
      WithoutKey(items, id)[k] == items[KeptKeyIndices(items, id)[k]]
  {
    var n := |items| - 1;
    var init := items[..n];
    var rest, kept := WithoutKey(init, id), KeptKeyIndices(init, id);
    forall k | 0 <= k < |kept|
      ensures items[kept[k]] == rest[k]
    {
      assert items[kept[k]] == init[kept[k]];
    }
    if Key(items[n]) != Some(id) {
      assert WithoutKey(items, id) == rest + [items[n]];
      assert KeptKeyIndices(items, id) == kept + [n];
    } else {
      assert WithoutKey(items, id) == rest;
      assert KeptKeyIndices(items, id) == kept;
    }
  }

  /** The array after `deleteField`: by position when `index` is a number in
      range, otherwise by key. */
  function DeletedFields(items: seq<ClientField>, id: string, index: Option<int>): (r: seq<ClientField>)
    ensures index.Some? && 0 <= index.value < |items| ==> |r| == |items| - 1
    ensures !(index.Some? && 0 <= index.value < |items|) ==>
      forall j :: 0 <= j < |r| ==> Key(r[j]) != Some(id)
    ensures forall j :: 0 <= j < |r| ==> r[j] in items
  {
    if index.Some? && 0 <= index.value < |items| then items[..index.value] + items[index.value + 1..]
    else WithoutKey(items, id)
  }

  /** A JavaScript array of fields: an object several forms may point to. */
  class FieldArray {
    var items: seq<ClientField>

    constructor (items: seq<ClientField>)
      ensures this.items == items
    {
      this.items := items;
    }

    /** `findIndex` over the array, by key. */
    method FindIndexByKey(id: string) returns (i: int)
      ensures i == FirstMatch(items, id)
    {
      i := 0;
      while i < |items| && Key(items[i]) != Some(id)
        invariant 0 <= i <= |items|
        invariant forall j :: 0 <= j < i ==> Key(items[j]) != Some(id)
      {
        i := i + 1;
      }
      if i == |items| {
        i := -1;
      }
    }

    /** `array[i] = x`. */
    method Assign(i: nat, x: ClientField)
      requires i < |items|
      modifies this
      ensures items == old(items)[i := x]
    {
      items := items[i := x];
    }

    /** `array.splice(start, 0, x)`. */
    method SpliceInsert(start: int, x: ClientField)
      modifies this
      ensures var k := SpliceIndex(|old(items)|, start);
        items == old(items)[..k] + [x] + old(items)[k..]
    {
      var k := SpliceIndex(|items|, start);
      items := items[..k] + [x] + items[k..];
    }
  }

  /** The shallow copy the applier works on and returns. */
  class ClientForm {
    var title: string
    var description: string
    var fields: FieldArray

    constructor (title: string, description: string, fields: FieldArray)
      ensures this.title == title && this.description == description && this.fields == fields
    {
      this.title := title;
      this.description := description;
      this.fields := fields;
    }
  }

  /** `addField`: edits the form's array in place and returns a shallow copy
      of the form that shares it. */
  method AddField(form: ClientForm, field: OpField) returns (r: ClientForm)
    modifies form.fields
    ensures fresh(r) && r.fields == form.fields
    ensures r.title == form.title && r.description == form.description
    ensures form.fields.items == AddedFields(old(form.fields.items), field)
  {
    var insertIndex := if field.location.Some? then field.location.value else |form.fields.items|;
    var existingIndex := form.fields.FindIndexByKey(field.id);
    var next := BuildField(field, insertIndex);
    if next.Some? {
      if existingIndex >= 0 {
        form.fields.Assign(existingIndex, next.value);
      } else {
        form.fields.SpliceInsert(insertIndex, next.value);
      }
    }
    r := new ClientForm(form.title, form.description, form.fields);
  }

  /** `deleteField`: gives the form a new, filtered array and returns a
      shallow copy; the previous array is left as it was. */
  method DeleteField(form: ClientForm, id: string, index: Option<int>) returns (r: ClientForm)
    modifies form
    ensures fresh(r) && fresh(form.fields) && r.fields == form.fields
    ensures r.title == form.title == old(form.title)
    ensures r.description == form.description == old(form.description)
    ensures form.fields.items == DeletedFields(old(form.fields.items), id, index)
    ensures old(form.fields).items == old(form.fields.items)
  {
    var kept := DeletedFields(form.fields.items, id, index);
    form.fields := new FieldArray(kept);
    r := new ClientForm(form.title, form.description, form.fields);
  }

  /** `applyOperation`: defaults a missing title, description or field list
      to `""`, `""` and `[]`, then applies one operation. An `add_field`
      changes the caller's own array, which the result shares. */
  method ApplyOperation(form: FormInput, op: ClientOperation) returns (r: ClientForm)
    modifies if form.fields.Some? then {form.fields.value} else {}
    ensures fresh(r)
    ensures r.title == if op.SetTitle? then op.title else form.title.GetOr("")
    ensures r.description == if op.SetDescription? then op.description else form.description.GetOr("")
    ensures var before := if form.fields.Some? then old(form.fields.value.items) else [];
      r.fields.items == match op
        case AddFieldOp(f) => AddedFields(before, f)
        case DeleteFieldOp(id, index) => DeletedFields(before, id, index)
        case _ => before
    ensures form.fields.Some? && !op.DeleteFieldOp? ==> r.fields == form.fields.value
    ensures form.fields.Some? && !op.AddFieldOp? ==>
      form.fields.value.items == old(form.fields.value.items)
  {
    var shared: FieldArray;
    if form.fields.Some? {
      shared := form.fields.value;
    } else {
      shared := new FieldArray([]);
    }
    var updated := new ClientForm(form.title.GetOr(""), form.description.GetOr(""), shared);
    match op
    case SetTitle(title) =>
      updated.title := title;
      r := updated;
    case SetDescription(description) =>
      updated.description := description;
      r := updated;
    case AddFieldOp(field) =>
      r := AddField(updated, field);
    case DeleteFieldOp(id, index) =>
      r := DeleteField(updated, id, index);
    case OtherOp(_) =>
      r := updated;
  }

  /** An `add_field` whose id (or `_id`) is already present replaces that
      entry at the same index; nothing else moves and the length is unchanged. */
  lemma AddExistingReplacesInPlace(items: seq<ClientField>, field: OpField)
    requires FirstMatch(items, field.id) >= 0
    requires BuildField(field, InsertIndex(items, field)).Some?
    ensures var r := AddedFields(items, field);
      var e := FirstMatch(items, field.id);
      && |r| == |items|
      && r[e] == BuildField(field, InsertIndex(items, field)).value
      && forall j :: 0 <= j < |items| && j != e ==> r[j] == items[j]
  {
  }

  /** An `add_field` with a new id inserts at the clamped `splice` position of
      its location (the end when it has none) and grows the array by one;
      the entries before and after are untouched, locations included. */
  lemma AddNewInsertsAtLocation(items: seq<ClientField>, field: OpField)
    requires FirstMatch(items, field.id) < 0
    requires BuildField(field, InsertIndex(items, field)).Some?
    ensures var r := AddedFields(items, field);
      var k := SpliceIndex(|items|, InsertIndex(items, field));
      && |r| == |items| + 1
      && (field.location.None? ==> k == |items|)
      && r[k] == BuildField(field, InsertIndex(items, field)).value
      && r[k].location == InsertIndex(items, field)
      && r[..k] == items[..k] && r[k + 1..] == items[k..]
  {
    var r := AddedFields(items, field);
    var k := SpliceIndex(|items|, InsertIndex(items, field));
    assert r == items[..k] + [r[k]] + items[k..];
    assert r[..k] == items[..k];
    assert r[k + 1..] == items[k..];
  }

  /** A field kind other than text, para, radio or checkbox changes nothing. */
  lemma AddUnknownKindIsNoOp(items: seq<ClientField>, field: OpField)
    requires KindOf(field) !in {Some("text"), Some("para"), Some("radio"), Some("checkbox")}
    ensures AddedFields(items, field) == items
  {
  }

  /** A `delete_field` whose index is a number in range removes exactly that
      position, whatever the id says. */
  lemma DeleteByIndexRemovesPosition(items: seq<ClientField>, id: string, i: int)
    requires 0 <= i < |items|
    ensures var r := DeletedFields(items, id, Some(i));
      && |r| == |items| - 1
      && (forall j :: 0 <= j < i ==> r[j] == items[j])
      && (forall j :: i <= j < |r| ==> r[j] == items[j + 1])
  {
    var r := items[..i] + items[i + 1..];
    assert DeletedFields(items, id, Some(i)) == r;
    forall j | i <= j < |r|
      ensures r[j] == items[j + 1]
    {
      assert r[j] == items[i + 1..][j - i];
    }
  }

  /** Otherwise every field whose key is `id` goes, so an absent id leaves
      the array as it was. */
  lemma {:induction false} DeleteByKeyWithoutMatchIsNoOp(items: seq<ClientField>, id: string)
    requires forall j :: 0 <= j < |items| ==> Key(items[j]) != Some(id)
    ensures WithoutKey(items, id) == items
  {
    if items != [] {
      var n := |items| - 1;
      DeleteByKeyWithoutMatchIsNoOp(items[..n], id);
      assert items == items[..n] + [items[n]];
    }
  }

  /** Locations are dense, zero-based and follow list order. */
  predicate DenseLocations(items: seq<ClientField>) {
    forall i :: 0 <= i < |items| ==> items[i].location == i
  }

  /** Unlike the backend, the client does not renumber: inserting a new field
      in front of a non-empty dense array leaves two fields at the same
      location, so the array is no longer dense. */
  lemma InsertBeforeBreaksDensity(items: seq<ClientField>, field: OpField, k: nat)
    requires DenseLocations(items) && k < |items|
    requires field.location == Some(k) && FirstMatch(items, field.id) < 0
    requires BuildField(field, k).Some?
    ensures var r := AddedFields(items, field);
      r[k].location == r[k + 1].location == k && !DenseLocations(r)
  {
    AddNewInsertsAtLocation(items, field);
    var r := AddedFields(items, field);
    assert r[k + 1..] == items[k..];
    assert r[k + 1] == items[k];
  }

  /** Deleting by position does not renumber either: removing the first of a
      dense array of two or more leaves a gap at location 0. */
  lemma DeleteFirstLeavesGap(items: seq<ClientField>, id: string)
    requires DenseLocations(items) && |items| >= 2
    ensures var r := DeletedFields(items, id, Some(0));
      r[0].location == 1 && !DenseLocations(r)
  {
  }
}
