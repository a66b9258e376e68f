/** The body of an export request: who asks, which form, and the form's
    content. `ValidBody` is what the schema accepts; `DecodeBody` is the
    value it returns (unknown keys dropped). */
module GoogleFormSchema {
  import opened Wrappers
  import opened FormTypes
  import opened JsonValue

  datatype ExportField = ExportField(
    fieldLabel: string,
    fieldType: FieldType,
    options: Option<seq<string>>,
    required: bool,
    location: int)

  datatype ExportForm = ExportForm(title: string, description: Option<string>, fields: seq<ExportField>)

  datatype ExportBody = ExportBody(userId: string, formId: string, form: ExportForm)

  /** A field: non-empty `label`, one of the four kinds, optional list of
      option strings, `required` and `location`. Options are allowed but not
      demanded for every kind. */
  predicate ValidField(j: Json): (b: bool)
    ensures b ==> (HasNonEmptyString(j, "label") && HasString(j, "fieldType")
      && j.members["fieldType"].s in {"text", "para", "radio", "checkbox"})
  {
    && HasNonEmptyString(j, "label")
    && HasString(j, "fieldType") && FieldTypeNamed(j.members["fieldType"].s).Some?
    && OptionalStrings(j, "options")
    && HasBool(j, "required") && HasNumber(j, "location")
  }

  predicate ValidFields(items: seq<Json>) {
    forall i :: 0 <= i < |items| ==> ValidField(items[i])
  }

  /** The form: non-empty `title`, optional string `description`, an array of fields. */
  predicate ValidForm(j: Json) {
    && HasNonEmptyString(j, "title")
    && ("description" in j.members ==> j.members["description"].JStr?)
    && "fields" in j.members && j.members["fields"].JArr?
    && ValidFields(j.members["fields"].items)
  }

  /** `createGoogleFormBodySchema`: non-empty `userId` and `formId`, and a valid form. */
  predicate ValidBody(j: Json): (b: bool)
    ensures b ==> (HasNonEmptyString(j, "userId") && HasNonEmptyString(j, "formId")
      && "form" in j.members && HasNonEmptyString(j.members["form"], "title"))
    ensures b ==> (var form := j.members["form"].members;
      && "fields" in form && form["fields"].JArr?
      && forall i :: 0 <= i < |form["fields"].items| ==> HasNonEmptyString(form["fields"].items[i], "label"))
  {
    && HasNonEmptyString(j, "userId") && HasNonEmptyString(j, "formId")
    && "form" in j.members && ValidForm(j.members["form"])
  }

  function DecodeField(j: Json): (f: ExportField)
    requires ValidField(j)
    ensures JStr(f.fieldLabel) == j.members["label"] && f.fieldLabel != ""
    ensures JStr(f.fieldType.Name()) == j.members["fieldType"]
    ensures f.options.Some? <==> "options" in j.members
    ensures f.options.Some? ==> j.members["options"] == JArr(StringArray(f.options.value))
    ensures JBool(f.required) == j.members["required"] && JNum(f.location) == j.members["location"]
  {
    var options := if "options" in j.members then Some(Strings(j.members["options"].items)) else None;
    assert options.Some? ==> j.members["options"].items == StringArray(options.value);
    ExportField(j.members["label"].s, FieldTypeNamed(j.members["fieldType"].s).value, options,
      j.members["required"].b, j.members["location"].n)
  }

  function DecodeFields(items: seq<Json>): (r: seq<ExportField>)
    requires ValidFields(items)
    ensures |r| == |items|
    ensures forall i :: 0 <= i < |items| ==> r[i] == DecodeField(items[i])
  {
    seq(|items|, i requires 0 <= i < |items| && ValidFields(items) => DecodeField(items[i]))
  }

  /** Every text the schema requires to be non-empty is. */
  predicate NonEmptyTexts(b: ExportBody) {
    && b.userId != "" && b.formId != "" && b.form.title != ""
    && forall i :: 0 <= i < |b.form.fields| ==> b.form.fields[i].fieldLabel != ""
  }

  /** `createGoogleFormBodySchema.safeParse`: the typed body, or `None` on rejection. */
  function DecodeBody(j: Json): (r: Option<ExportBody>)
    ensures r.Some? <==> ValidBody(j)
    ensures r.Some? ==> (NonEmptyTexts(r.value)
      && JStr(r.value.userId) == j.members["userId"] && JStr(r.value.formId) == j.members["formId"]
      && |r.value.form.fields| == |j.members["form"].members["fields"].items|)
    ensures r.Some? ==> (var form := j.members["form"].members;
      && JStr(r.value.form.title) == form["title"]
      && (r.value.form.description.Some? <==> "description" in form)
      && (r.value.form.description.Some? ==> form["description"] == JStr(r.value.form.description.value))
      && ValidFields(form["fields"].items)
      && r.value.form.fields == DecodeFields(form["fields"].items))
  {
    if !ValidBody(j) then None
    else
      var form := j.members["form"];
      var description := if "description" in form.members then Some(form.members["description"].s) else None;
      Some(ExportBody(j.members["userId"].s, j.members["formId"].s,
        ExportForm(form.members["title"].s, description, DecodeFields(form.members["fields"].items))))
  }

  function EncodeField(f: ExportField): Json {
    JObj(map["label" := JStr(f.fieldLabel), "fieldType" := JStr(f.fieldType.Name()),
      "required" := JBool(f.required), "location" := JNum(f.location)]
      + (if f.options.Some? then map["options" := JArr(StringArray(f.options.value))] else map[]))
  }

  function EncodeBody(b: ExportBody): Json {
    var form := map["title" := JStr(b.form.title),
      "fields" := JArr(seq(|b.form.fields|, i requires 0 <= i < |b.form.fields| => EncodeField(b.form.fields[i])))];
    JObj(map["userId" := JStr(b.userId), "formId" := JStr(b.formId),
      "form" := JObj(form + (if b.form.description.Some? then map["description" := JStr(b.form.description.value)] else map[]))])
  }

  lemma FieldRoundTrip(f: ExportField)
    ensures ValidField(EncodeField(f)) <==> f.fieldLabel != ""
    ensures f.fieldLabel != "" ==> DecodeField(EncodeField(f)) == f
  {
    var j := EncodeField(f);
    assert FieldTypeNamed(f.fieldType.Name()) == Some(f.fieldType);
    if f.options.Some? {
      StringsOfStringArray(f.options.value);
    }
  }

  /** An encoded body is accepted exactly when its required texts are
      non-empty, and then it decodes to itself. */
  lemma BodyRoundTrip(b: ExportBody)
    ensures ValidBody(EncodeBody(b)) <==> NonEmptyTexts(b)
    ensures NonEmptyTexts(b) ==> DecodeBody(EncodeBody(b)) == Some(b)
  {
    var j := EncodeBody(b);
    var items := j.members["form"].members["fields"].items;
    forall i | 0 <= i < |b.form.fields|
      ensures ValidField(items[i]) <==> b.form.fields[i].fieldLabel != ""
      ensures b.form.fields[i].fieldLabel != "" ==> DecodeField(items[i]) == b.form.fields[i]
    {
      FieldRoundTrip(b.form.fields[i]);
    }
    if NonEmptyTexts(b) {
      assert DecodeFields(items) == b.form.fields;
    }
  }
}
