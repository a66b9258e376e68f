/** The agent's tool adapters: each tool validates its input against a
    declared schema and its `execute` returns a record tagged with the
    operation type. `ToolOutput` is what `execute` returns, `Encode` the JSON
    object that is written to the stream for it. */
module AiTools {
  import opened Wrappers
  import opened FormTypes
  import opened JsonValue

  /** The input of `update_field`: every key is required except `options`. */
  datatype UpdateFieldInput = UpdateFieldInput(
    index: int,
    id: string,
    fieldType: string,
    fieldLabel: string,
    required: bool,
    options: Option<seq<string>>)

  /** The nested `field` of an `update_field` result: the input without
      `id` and `index`. */
  datatype FieldPatch = FieldPatch(
    fieldType: string,
    fieldLabel: string,
    required: bool,
    options: Option<seq<string>>)

  /** What the six `execute` bodies return. */
  datatype ToolOutput =
    | TitleUpdated(title: string)
    | DescriptionUpdated(description: string)
    | FieldAdded(field: Field)
    | FieldUpdated(id: string, index: int, patch: FieldPatch)
    | FieldDeleted(id: string, index: int)
    | FieldMoved(id: string, fromIndex: int, toIndex: int)

  /** The `type` tag of a result. */
  function Tag(o: ToolOutput): string {
    match o
    case TitleUpdated(_) => "update_title"
    case DescriptionUpdated(_) => "update_description"
    case FieldAdded(_) => "add_field"
    case FieldUpdated(_, _, _) => "update_field"
    case FieldDeleted(_, _) => "delete_field"
    case FieldMoved(_, _, _) => "move_field"
  }

  /** `update_title`: the written object holds the tag and the title, nothing else. */
  function UpdateTitleTool(title: string): (r: ToolOutput)
    ensures Tag(r) == "update_title"
    ensures Encode(r).members.Keys == {"type", "title"} && Encode(r).members["title"] == JStr(title)
  {
    TitleUpdated(title)
  }

  /** `update_description`: the written object holds the tag and the description. */
  function UpdateDescriptionTool(description: string): (r: ToolOutput)
    ensures Tag(r) == "update_description"
    ensures Encode(r).members.Keys == {"type", "description"}
    ensures Encode(r).members["description"] == JStr(description)
  {
    DescriptionUpdated(description)
  }

  /** The add-field input has exactly the keys of a stored field, so the
      input itself becomes the result's `field`: the input schema reads the
      written `field` back as the input. */
  function AddFieldTool(input: Field): (r: ToolOutput)
    ensures Tag(r) == "add_field"
    ensures Encode(r).members.Keys == {"type", "field"}
    ensures ParseAddFieldInput(Encode(r).members["field"]) == Some(input)
  {
    AddFieldInputRoundTrip(input);
    FieldAdded(input)
  }

  /** `update_field`: `id` and `index` at the top level beside the tag and
      the nested `field`. */
  function UpdateFieldTool(input: UpdateFieldInput): (r: ToolOutput)
    ensures Tag(r) == "update_field"
    ensures Encode(r).members.Keys == {"id", "type", "index", "field"}
    ensures Encode(r).members["id"] == JStr(input.id) && Encode(r).members["index"] == JNum(input.index)
  {
    FieldUpdated(input.id, input.index,
      FieldPatch(input.fieldType, input.fieldLabel, input.required, input.options))
  }

  /** `delete_field`: the field's id and index as given, beside the tag. */
  function DeleteFieldTool(id: string, index: int): (r: ToolOutput)
    ensures Tag(r) == "delete_field"
    ensures Encode(r).members.Keys == {"id", "type", "index"}
    ensures Encode(r).members["id"] == JStr(id) && Encode(r).members["index"] == JNum(index)
  {
    FieldDeleted(id, index)
  }

  /** `move_field`: the field's id and both positions as given, beside the tag. */
  function MoveFieldTool(id: string, fromIndex: int, toIndex: int): (r: ToolOutput)
    ensures Tag(r) == "move_field"
    ensures Encode(r).members.Keys == {"id", "type", "fromIndex", "toIndex"}
    ensures Encode(r).members["id"] == JStr(id)
    ensures Encode(r).members["fromIndex"] == JNum(fromIndex) && Encode(r).members["toIndex"] == JNum(toIndex)
  {
    FieldMoved(id, fromIndex, toIndex)
  }

  /** `options`, when present, as a JSON member. */
  function OptionsMember(options: Option<seq<string>>): map<string, Json> {
    if options.Some? then map["options" := JArr(StringArray(options.value))] else map[]
  }

  /** A field as a JSON object. */
  function EncodeField(f: Field): Json {
    JObj(map["id" := JStr(f.id), "fieldType" := JStr(f.fieldType.Name()),
      "label" := JStr(f.fieldLabel), "required" := JBool(f.required),
      "location" := JNum(f.location)] + OptionsMember(f.options))
  }

  /** The validated `update_field` input as the object `execute` receives. */
  function EncodeUpdateFieldInput(input: UpdateFieldInput): Json {
    JObj(map["index" := JNum(input.index), "id" := JStr(input.id),
      "fieldType" := JStr(input.fieldType), "label" := JStr(input.fieldLabel),
      "required" := JBool(input.required)] + OptionsMember(input.options))
  }

  /** A result as the JSON object written for it. */
  function Encode(o: ToolOutput): (j: Json)
    ensures j.JObj? && "type" in j.members && j.members["type"] == JStr(Tag(o))
  {
    match o
    case TitleUpdated(title) =>
      JObj(map["type" := JStr(Tag(o)), "title" := JStr(title)])
    case DescriptionUpdated(description) =>
      JObj(map["type" := JStr(Tag(o)), "description" := JStr(description)])
    case FieldAdded(field) =>
      JObj(map["type" := JStr(Tag(o)), "field" := EncodeField(field)])
    case FieldUpdated(id, index, patch) =>
      JObj(map["id" := JStr(id), "type" := JStr(Tag(o)), "index" := JNum(index),
        "field" := JObj(map["fieldType" := JStr(patch.fieldType), "label" := JStr(patch.fieldLabel),
          "required" := JBool(patch.required)] + OptionsMember(patch.options))])
    case FieldDeleted(id, index) =>
      JObj(map["id" := JStr(id), "type" := JStr(Tag(o)), "index" := JNum(index)])
    case FieldMoved(id, fromIndex, toIndex) =>
      JObj(map["id" := JStr(id), "type" := JStr(Tag(o)), "fromIndex" := JNum(fromIndex),
        "toIndex" := JNum(toIndex)])
  }

  /** The add-field input schema: `fieldType` is one of the four kinds,
      `options` is optional whatever the kind; unknown keys are dropped. */
  function ParseAddFieldInput(j: Json): (r: Option<Field>)
    ensures r.Some? <==>
      && HasString(j, "id") && HasString(j, "fieldType") && HasString(j, "label")
      && HasBool(j, "required") && HasNumber(j, "location") && OptionalStrings(j, "options")
      && FieldTypeNamed(j.members["fieldType"].s).Some?
    ensures r.Some? ==>
      && JStr(r.value.id) == j.members["id"] && JStr(r.value.fieldLabel) == j.members["label"]
      && JStr(r.value.fieldType.Name()) == j.members["fieldType"]
      && JBool(r.value.required) == j.members["required"]
      && JNum(r.value.location) == j.members["location"]
      && (r.value.options.Some? <==> "options" in j.members)
      && (r.value.options.Some? ==> j.members["options"] == JArr(StringArray(r.value.options.value)))
  {
    if && HasString(j, "id") && HasString(j, "fieldType") && HasString(j, "label")
       && HasBool(j, "required") && HasNumber(j, "location") && OptionalStrings(j, "options")
       && FieldTypeNamed(j.members["fieldType"].s).Some?
    then
      var options := if "options" in j.members then Some(Strings(j.members["options"].items)) else None;
      assert options.Some? ==> j.members["options"] == JArr(StringArray(options.value)) by {
        if options.Some? {
          var items := j.members["options"].items;
          assert StringArray(options.value) == items;
        }
      }
      Some(Field(j.members["id"].s, j.members["label"].s,
        FieldTypeNamed(j.members["fieldType"].s).value, options,
        j.members["required"].b, j.members["location"].n))
    else None
  }

  /** Every field the add-field tool can emit is read back by its own schema. */
  lemma AddFieldInputRoundTrip(f: Field)
    ensures ParseAddFieldInput(EncodeField(f)) == Some(f)
  {
    var j := EncodeField(f);
    assert FieldTypeNamed(f.fieldType.Name()) == Some(f.fieldType);
    var r := ParseAddFieldInput(j);
    if f.options.Some? {
      StringsOfStringArray(f.options.value);
    }
    assert r.value.options == f.options;
  }

  /** The add-field schema does not ask a radio or checkbox field for options:
      a radio field without `options` is accepted. */
  lemma AddFieldAcceptsChoiceWithoutOptions(id: string, caption: string, required: bool, location: int)
    ensures ParseAddFieldInput(EncodeField(Field(id, caption, Radio, None, required, location)))
      == Some(Field(id, caption, Radio, None, required, location))
  {
    AddFieldInputRoundTrip(Field(id, caption, Radio, None, required, location));
  }

  /** `update_field` lifts `id` and `index` to the top level; its nested
      `field` holds every other input key, with the same values. */
  lemma UpdateFieldSplitsInput(input: UpdateFieldInput)
    ensures var out := Encode(UpdateFieldTool(input)).members;
      var given := EncodeUpdateFieldInput(input).members;
      && out["id"] == given["id"] && out["index"] == given["index"]
      && out["field"].JObj?
      && out["field"].members == given - {"id", "index"}
  {
    var given := EncodeUpdateFieldInput(input).members;
    var nested := Encode(UpdateFieldTool(input)).members["field"].members;
    assert nested.Keys == given.Keys - {"id", "index"};
  }
}
