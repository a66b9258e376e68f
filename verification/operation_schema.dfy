/** The operation schema: a union discriminated on `type` with three
    variants, the `add_field` one itself discriminated on `fieldType`.
    `Valid` is what the schema accepts; `Parse` is the value it returns
    (unknown keys dropped, so a text or paragraph field loses any `options`). */
module OperationSchema {
  import opened Wrappers
  import opened FormTypes
  import opened JsonValue
  import AiTools

  /** A field of an accepted `add_field`. */
  datatype SchemaField = SchemaField(
    fieldType: FieldType,
    id: string,
    fieldLabel: string,
    options: Option<seq<string>>,
    required: bool,
    location: int)

  datatype Operation =
    | UpdateTitle(title: string)
    | UpdateDescription(description: string)
    | AddField(field: SchemaField)

  /** The shape of each variant: choice fields carry at least one option,
      text and paragraph fields carry none. */
  predicate WellFormed(op: Operation) {
    op.AddField? ==>
      if op.field.fieldType.IsChoice() then op.field.options.Some? && |op.field.options.value| >= 1
      else op.field.options.None?
  }

  /** The field kind a JSON field object names, if it names one. */
  function KindIn(j: Json): Option<FieldType> {
    if HasString(j, "fieldType") then FieldTypeNamed(j.members["fieldType"].s) else None
  }

  /** Some option list of at least one string is present. */
  predicate HasOptions(j: Json) {
    && j.JObj? && "options" in j.members && j.members["options"].JArr?
    && AllStrings(j.members["options"].items) && |j.members["options"].items| >= 1
  }

  /** One variant of the field union: `id`, `label`, `required` and
      `location` always, `options` for the two choice kinds. */
  predicate ValidField(j: Json): (b: bool)
    ensures b ==> (j.JObj? && HasString(j, "fieldType")
      && j.members["fieldType"].s in {"text", "para", "radio", "checkbox"})
    ensures b && j.members["fieldType"].s in {"radio", "checkbox"} ==> HasOptions(j)
  {
    && KindIn(j).Some?
    && HasString(j, "id") && HasString(j, "label") && HasBool(j, "required") && HasNumber(j, "location")
    && (KindIn(j).value.IsChoice() ==> HasOptions(j))
  }

  /** What the operation schema accepts: only the `update_title`,
      `update_description` and `add_field` tags. */
  predicate Valid(j: Json): (b: bool)
    ensures b ==> (HasString(j, "type")
      && j.members["type"].s in {"update_title", "update_description", "add_field"})
  {
    && HasString(j, "type")
    && var tag := j.members["type"].s;
      || (tag == "update_title" && HasString(j, "title"))
      || (tag == "update_description" && HasString(j, "description"))
      || (tag == "add_field" && "field" in j.members && ValidField(j.members["field"]))
  }

  function ParseField(j: Json): (r: SchemaField)
    requires ValidField(j)
    ensures r.fieldType == KindIn(j).value
    ensures JStr(r.id) == j.members["id"] && JStr(r.fieldLabel) == j.members["label"]
    ensures JBool(r.required) == j.members["required"] && JNum(r.location) == j.members["location"]
    ensures r.fieldType.IsChoice() ==> r.options == Some(Strings(j.members["options"].items))
    ensures !r.fieldType.IsChoice() ==> r.options == None
  {
    var kind := KindIn(j).value;
    SchemaField(kind, j.members["id"].s, j.members["label"].s,
      if kind.IsChoice() then Some(Strings(j.members["options"].items)) else None,
      j.members["required"].b, j.members["location"].n)
  }

  /** `OperationSchema.safeParse`: the typed operation, or `None` on rejection. */
  function Parse(j: Json): (r: Option<Operation>)
    ensures r.Some? <==> Valid(j)
    ensures r.Some? ==> WellFormed(r.value) && JStr(Tag(r.value)) == j.members["type"]
    ensures r.Some? && r.value.UpdateTitle? ==> j.members["title"] == JStr(r.value.title)
    ensures r.Some? && r.value.UpdateDescription? ==> j.members["description"] == JStr(r.value.description)
    ensures r.Some? && r.value.AddField? ==>
      ("field" in j.members && ValidField(j.members["field"]) && r.value.field == ParseField(j.members["field"]))
  {
    if !HasString(j, "type") then None
    else
      var tag := j.members["type"].s;
      if tag == "update_title" && HasString(j, "title") then Some(UpdateTitle(j.members["title"].s))
      else if tag == "update_description" && HasString(j, "description") then
        Some(UpdateDescription(j.members["description"].s))
      else if tag == "add_field" && "field" in j.members && ValidField(j.members["field"]) then
        Some(AddField(ParseField(j.members["field"])))
      else None
  }

  function Tag(op: Operation): string {
    match op
    case UpdateTitle(_) => "update_title"
    case UpdateDescription(_) => "update_description"
    case AddField(_) => "add_field"
  }

  function EncodeField(f: SchemaField): Json {
    JObj(map["fieldType" := JStr(f.fieldType.Name()), "id" := JStr(f.id), "label" := JStr(f.fieldLabel),
      "required" := JBool(f.required), "location" := JNum(f.location)]
      + AiTools.OptionsMember(f.options))
  }

  function Encode(op: Operation): Json {
    match op
    case UpdateTitle(title) => JObj(map["type" := JStr(Tag(op)), "title" := JStr(title)])
    case UpdateDescription(description) => JObj(map["type" := JStr(Tag(op)), "description" := JStr(description)])
    case AddField(field) => JObj(map["type" := JStr(Tag(op)), "field" := EncodeField(field)])
  }

  /** Every well-formed operation survives encoding and parsing unchanged.
      An encoded operation is accepted exactly when a choice field brings at
      least one option; a text or paragraph field that brings options is
      still accepted (the options are dropped). */
  lemma ParseEncodeRoundTrip(op: Operation)
    ensures WellFormed(op) ==> Parse(Encode(op)) == Some(op)
    ensures Valid(Encode(op)) <==>
      (op.AddField? && op.field.fieldType.IsChoice() ==> op.field.options.Some? && |op.field.options.value| >= 1)
  {
    if op.AddField? {
      var members := Encode(op).members;
      assert members["type"] == JStr("add_field") && members["field"] == EncodeField(op.field);
      SchemaFieldRoundTrip(op.field);
    }
  }

  /** A field object is accepted exactly when a choice field brings at least
      one option, and a well-formed field is read back unchanged. */
  lemma SchemaFieldRoundTrip(f: SchemaField)
    ensures ValidField(EncodeField(f)) <==>
      (f.fieldType.IsChoice() ==> f.options.Some? && |f.options.value| >= 1)
    ensures WellFormed(AddField(f)) ==> ParseField(EncodeField(f)) == f
  {
    var j := EncodeField(f);
    assert FieldTypeNamed(f.fieldType.Name()) == Some(f.fieldType);
    assert KindIn(j) == Some(f.fieldType);
    if f.options.Some? {
      StringsOfStringArray(f.options.value);
    }
  }

  /** Against the tools: the title, description and add-field results are
      accepted exactly when a choice field brings at least one option; the
      update, delete and move results never are. */
  lemma ToolOutputsAgainstSchema(o: AiTools.ToolOutput)
    ensures Valid(AiTools.Encode(o)) <==>
      || o.TitleUpdated? || o.DescriptionUpdated?
      || (o.FieldAdded? && (o.field.fieldType.IsChoice() ==>
            o.field.options.Some? && |o.field.options.value| >= 1))
  {
    var members := AiTools.Encode(o).members;
    match o
    case TitleUpdated(_) =>
    case DescriptionUpdated(_) =>
    case FieldAdded(f) =>
      assert members["field"] == AiTools.EncodeField(f);
      AddedFieldAgainstSchema(f);
    case FieldUpdated(_, _, _) =>
      assert members["type"].s == "update_field";
    case FieldDeleted(_, _) =>
      assert members["type"].s == "delete_field";
    case FieldMoved(_, _, _) =>
      assert members["type"].s == "move_field";
  }

  /** The field an `add_field` result carries fits the field union exactly
      when a choice field brings at least one option. */
  lemma AddedFieldAgainstSchema(f: Field)
    ensures ValidField(AiTools.EncodeField(f)) <==>
      (f.fieldType.IsChoice() ==> f.options.Some? && |f.options.value| >= 1)
  {
    var j := AiTools.EncodeField(f);
    assert FieldTypeNamed(f.fieldType.Name()) == Some(f.fieldType);
    assert KindIn(j) == Some(f.fieldType);
    if f.options.Some? {
      assert j.members["options"] == JArr(StringArray(f.options.value));
    }
  }
}
