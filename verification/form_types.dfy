/** The stored form document and its fields (backend `Form` and `FormField`).
    `_id` is written `id`, `label` (a Dafny keyword) `fieldLabel`; dates are
    millisecond timestamps. */
module FormTypes {
  import opened Wrappers

  /** The four field kinds a form may hold. */
  datatype FieldType = Text | Para | Radio | Checkbox {

    /** The string the kind is stored and sent as. */
    function Name(): string {
      match this
      case Text => "text"
      case Para => "para"
      case Radio => "radio"
      case Checkbox => "checkbox"
    }

    predicate IsChoice() {
      Radio? || Checkbox?
    }
  }

  /** The kind a `fieldType` string names, if it names one. */
  function FieldTypeNamed(name: string): (r: Option<FieldType>)
    ensures r.Some? ==> r.value.Name() == name
    ensures forall t: FieldType :: t.Name() == name ==> r == Some(t)
  {
    if name == "text" then Some(Text)
    else if name == "para" then Some(Para)
    else if name == "radio" then Some(Radio)
    else if name == "checkbox" then Some(Checkbox)
    else None
  }

  datatype Field = Field(
    id: string,
    fieldLabel: string,
    fieldType: FieldType,
    options: Option<seq<string>>,
    required: bool,
    location: int)

  datatype Form = Form(
    id: string,
    title: string,
    description: Option<string>,
    fields: seq<Field>,
    userId: string,
    googleFormId: Option<string>,
    googleFormUrl: Option<string>,
    isSyncedWithGoogleForm: bool,
    createdAt: int,
    updatedAt: int)

  /** Some field of `fields` carries `id`. */
  predicate HasId(fields: seq<Field>, id: string) {
    exists i :: 0 <= i < |fields| && fields[i].id == id
  }

  /** No two fields share an id. */
  predicate UniqueIds(fields: seq<Field>) {
    forall i, j :: 0 <= i < j < |fields| ==> fields[i].id != fields[j].id
  }

  /** Locations are dense, zero-based and follow the order of the list. */
  predicate DenseLocations(fields: seq<Field>) {
    forall i :: 0 <= i < |fields| ==> fields[i].location == i
  }

  /** `a` and `b` agree on every attribute except perhaps `location`. */
  predicate SameButLocation(a: Field, b: Field) {
    a.id == b.id && a.fieldLabel == b.fieldLabel && a.fieldType == b.fieldType
    && a.options == b.options && a.required == b.required
  }
}
