/** The backend reconciler: applies one tool result to a stored form,
    rejecting a duplicate add, a delete of a missing id and any other action,
    and renumbering locations from list order after every structural edit. */
module FormEditUtils {
  import opened Wrappers
  import opened FormTypes

  /** A tool result as the reconciler receives it; `OtherAction` is any
      other `type` tag, which reaches the `default` branch. */
  datatype ToolAction =
    | UpdateTitle(title: string)
    | UpdateDescription(description: string)
    | AddField(field: Field)
    | DeleteField(id: string)
    | OtherAction(tag: string)

  /** The three errors the reconciler throws. */
  datatype EditError = DuplicateFieldId(id: string) | FieldNotFound(id: string) | UnknownActionType {

    /** The message the thrown error carries. */
    function Message(): string {
      match this
      case DuplicateFieldId(id) => "Field with id \"" + id + "\" already exists."
      case FieldNotFound(id) => "Field with id \"" + id + "\" does not exist."
      case UnknownActionType => "Unknown tool action type"
    }
  }

  /** Every field keeps its attributes and gets its index as location. */
  function NormalizeLocations(fields: seq<Field>): (r: seq<Field>)
    ensures |r| == |fields| && DenseLocations(r)
    ensures forall i :: 0 <= i < |r| ==> SameButLocation(r[i], fields[i])
  {
    seq(|fields|, i requires 0 <= i < |fields| => fields[i].(location := i))
  }

  /** The fields whose id differs from `id`, in their original order
      (`filter(f => f.id !== id)`). */
  function WithoutId(fields: seq<Field>, id: string): (r: seq<Field>)
    ensures |r| <= |fields|
    ensures !HasId(r, id)
    ensures forall j :: 0 <= j < |r| ==> r[j] in fields
  {
    if fields == [] then []
    else
      var init := fields[..|fields| - 1];
      var rest := WithoutId(init, id);
      if fields[|fields| - 1].id != id then
        var r := rest + [fields[|fields| - 1]];
        assert forall j :: 0 <= j < |rest| ==> r[j] == rest[j];
        r
      else rest
  }

  /** The positions of the fields that survive `WithoutId`, ascending. */
  function KeptIndices(fields: seq<Field>, id: string): (idx: seq<int>)
    ensures forall k :: 0 <= k < |idx| ==> 0 <= idx[k] < |fields| && fields[idx[k]].id != id
    ensures forall k, l :: 0 <= k < l < |idx| ==> idx[k] < idx[l]
    ensures forall i :: 0 <= i < |fields| && fields[i].id != id ==> i in idx
    ensures |idx| <= |fields| && (HasId(fields, id) ==> |idx| < |fields|)
  {
    if fields == [] then []
    else
      var rest := KeptIndices(fields[..|fields| - 1], id);
      if fields[|fields| - 1].id != id then rest + [|fields| - 1] else rest
  }

  /** Filtering keeps exactly the fields at `KeptIndices`, in that order. */
  lemma {:induction false} WithoutIdKeepsIndices(fields: seq<Field>, id: string)
    ensures |WithoutId(fields, id)| == |KeptIndices(fields, id)|
    ensures forall k :: 0 <= k < |KeptIndices(fields, id)| ==>
      WithoutId(fields, id)[k] == fields[KeptIndices(fields, id)[k]]
  {
    if fields != [] {
      var n := |fields| - 1;
      var init := fields[..n];
      WithoutIdKeepsIndices(init, id);
      var rest, kept := WithoutId(init, id), KeptIndices(init, id);
      forall k | 0 <= k < |kept|
        ensures fields[kept[k]] == init[kept[k]]
      {
      }
      if fields[n].id != id {
        assert WithoutId(fields, id) == rest + [fields[n]];
        assert KeptIndices(fields, id) == kept + [n];
      } else {
        assert WithoutId(fields, id) == rest;
        assert KeptIndices(fields, id) == kept;
      }
    }
  }

  /** An order-preserving selection of a list with unique ids has unique ids. */
  lemma WithoutIdKeepsUniqueIds(fields: seq<Field>, id: string)
    requires UniqueIds(fields)
    ensures UniqueIds(WithoutId(fields, id))
  {
    WithoutIdKeepsIndices(fields, id);
    var r := WithoutId(fields, id);
    var idx := KeptIndices(fields, id);
    forall k, l | 0 <= k < l < |r| ensures r[k].id != r[l].id {
      assert idx[k] < idx[l];
    }
  }

  /** `applyToolAction`: the new form, or the error it throws. */
  function ApplyToolAction(form: Form, action: ToolAction): (r: Result<Form, EditError>)
    ensures r.Failure? <==>
      || (action.AddField? && HasId(form.fields, action.field.id))
      || (action.DeleteField? && !HasId(form.fields, action.id))
      || action.OtherAction?
    ensures r.Failure? ==> r.error == match action
      case AddField(f) => DuplicateFieldId(f.id)
      case DeleteField(id) => FieldNotFound(id)
      case _ => UnknownActionType
    ensures r.Success? ==> r.value.(title := form.title,
      description := form.description, fields := form.fields) == form
    ensures r.Success? && (action.AddField? || action.DeleteField?) ==> DenseLocations(r.value.fields)
  {
    match action
    case UpdateTitle(title) => Success(form.(title := title))
    case UpdateDescription(description) => Success(form.(description := Some(description)))
    case AddField(field) =>
      if HasId(form.fields, field.id) then Failure(DuplicateFieldId(field.id))
      else Success(form.(fields := NormalizeLocations(form.fields + [field])))
    case DeleteField(id) =>
      if !HasId(form.fields, id) then Failure(FieldNotFound(id))
      else Success(form.(fields := NormalizeLocations(WithoutId(form.fields, id))))
    case OtherAction(_) => Failure(UnknownActionType)
  }

  /** Renumbering a list that is already dense changes nothing. */
  lemma NormalizeDenseIsIdentity(fields: seq<Field>)
    requires DenseLocations(fields)
    ensures NormalizeLocations(fields) == fields
  {
  }

  /** `update_title` replaces the title and nothing else. */
  lemma UpdateTitleChangesOnlyTitle(form: Form, title: string)
    ensures ApplyToolAction(form, UpdateTitle(title)) == Success(form.(title := title))
  {
  }

  /** `update_description` replaces the description and nothing else. */
  lemma UpdateDescriptionChangesOnlyDescription(form: Form, description: string)
    ensures ApplyToolAction(form, UpdateDescription(description))
      == Success(form.(description := Some(description)))
  {
  }

  /** A successful add puts the new field last, at location `n`, grows the
      list by one and does not look at the location the caller asked for. */
  lemma AddFieldAppendsAtEnd(form: Form, field: Field, requested: int)
    requires !HasId(form.fields, field.id)
    ensures var r := ApplyToolAction(form, AddField(field));
      && r.Success?
      && |r.value.fields| == |form.fields| + 1
      && r.value.fields[|form.fields|] == field.(location := |form.fields|)
      && r.value.fields[..|form.fields|] == NormalizeLocations(form.fields)
      && r == ApplyToolAction(form, AddField(field.(location := requested)))
  {
    var n := |form.fields|;
    var r := ApplyToolAction(form, AddField(field));
    var r' := ApplyToolAction(form, AddField(field.(location := requested)));
    assert !HasId(form.fields, field.(location := requested).id);
    assert r.value.fields[..n] == NormalizeLocations(form.fields);
    assert r.value.fields == r'.value.fields;
  }

  /** On a form whose locations are already dense, a successful add leaves
      every existing field exactly as it was. */
  lemma AddFieldKeepsDenseFields(form: Form, field: Field)
    requires !HasId(form.fields, field.id) && DenseLocations(form.fields)
    ensures ApplyToolAction(form, AddField(field))
      == Success(form.(fields := form.fields + [field.(location := |form.fields|)]))
  {
    AddFieldAppendsAtEnd(form, field, field.location);
    NormalizeDenseIsIdentity(form.fields);
    var r := ApplyToolAction(form, AddField(field));
    assert r.value.fields == r.value.fields[..|form.fields|] + [r.value.fields[|form.fields|]];
  }

  /** A successful delete leaves no field with that id, keeps the survivors in
      their original relative order, and renumbers them `0..n-1`. */
  lemma DeleteFieldRemovesAndRenumbers(form: Form, id: string)
    requires HasId(form.fields, id)
    ensures var r := ApplyToolAction(form, DeleteField(id));
      var idx := KeptIndices(form.fields, id);
      && r.Success?
      && !HasId(r.value.fields, id)
      && |r.value.fields| == |idx| < |form.fields|
      && forall k :: 0 <= k < |idx| ==> r.value.fields[k] == form.fields[idx[k]].(location := k)
  {
    WithoutIdKeepsIndices(form.fields, id);
  }

  /** Starting from unique ids and dense locations, every successful action
      keeps both; an unrecognised action always fails. */
  lemma ApplyKeepsInvariants(form: Form, action: ToolAction)
    requires UniqueIds(form.fields) && DenseLocations(form.fields)
    ensures action.OtherAction? ==> ApplyToolAction(form, action).Failure?
    ensures var r := ApplyToolAction(form, action);
      r.Success? ==> UniqueIds(r.value.fields) && DenseLocations(r.value.fields)
  {
    var r := ApplyToolAction(form, action);
    if r.Success? {
      match action
      case AddField(f) =>
        var fs := form.fields + [f];
        assert UniqueIds(fs) by {
          forall i, j | 0 <= i < j < |fs| ensures fs[i].id != fs[j].id {
            if j == |form.fields| {
              assert fs[i] == form.fields[i];
            }
          }
        }
        assert r.value.fields == NormalizeLocations(fs);
      case DeleteField(id) =>
        WithoutIdKeepsUniqueIds(form.fields, id);
        assert r.value.fields == NormalizeLocations(WithoutId(form.fields, id));
      case _ =>
    }
  }

  /** The two-field example: deleting the first of `[a@0, b@1]` leaves `[b@0]`. */
  lemma DeleteFirstOfTwoRenumbers(form: Form, a: Field, b: Field)
    requires form.fields == [a, b] && a.id != b.id && a.location == 0 && b.location == 1
    ensures ApplyToolAction(form, DeleteField(a.id)) == Success(form.(fields := [b.(location := 0)]))
  {
    assert form.fields[..1] == [a];
    assert [a][..0] == [];
    assert WithoutId([a], a.id) == [];
    assert WithoutId(form.fields, a.id) == [b];
    assert NormalizeLocations([b]) == [b.(location := 0)];
  }
}
