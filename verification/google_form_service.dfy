/** The request list an export sends to the Google Forms batch update: one
    delete per item of the current Google form, then one create per field of
    the form in the export request's body. `ApplyBatch` states what the Forms
    API does with such a list: requests apply in order, and the whole batch
    is rejected when one request's index is out of range or one created
    question is not a well-formed text or choice question. */
module GoogleFormService {
  import opened Wrappers
  import opened FormTypes
  import opened GoogleFormSchema

  datatype ChoiceKind = RadioChoice | CheckboxChoice

  datatype ChoiceQuestion = ChoiceQuestion(kind: ChoiceKind, options: Option<seq<string>>)

  /** A question: `paragraph` is the flag of the text question when there
      is one, `choice` the choice question when there is one. */
  datatype Question = Question(paragraph: Option<bool>, choice: Option<ChoiceQuestion>, required: bool)

  datatype Item = Item(title: string, question: Question)

  datatype Request = DeleteItem(index: int) | CreateItem(item: Item, index: int)

  // ---------------------------------------------------------------------
  // What the Forms API does with a batch

  /** A question the Forms API accepts: exactly one of a text and a choice
      question, and a choice question with at least one option. */
  predicate ValidQuestion(q: Question) {
    && q.paragraph.Some? != q.choice.Some?
    && (q.choice.Some? ==> q.choice.value.options.Some? && q.choice.value.options.value != [])
  }

  /** One request: a delete needs an existing index; a create needs an index
      up to the end of the list and a valid question. */
  function ApplyRequest(items: seq<Item>, request: Request): (r: Option<seq<Item>>)
    ensures r.Some? <==> match request
      case DeleteItem(i) => 0 <= i < |items|
      case CreateItem(item, i) => 0 <= i <= |items| && ValidQuestion(item.question)
    ensures r.Some? ==> |r.value| == |items| + (if request.DeleteItem? then -1 else 1)
    ensures r.Some? && request.DeleteItem? ==> var i := request.index;
      r.value[..i] == items[..i] && r.value[i..] == items[i + 1..]
    ensures r.Some? && request.CreateItem? ==> var i := request.index;
      r.value[..i] == items[..i] && r.value[i] == request.item && r.value[i + 1..] == items[i..]
  {
    match request
    case DeleteItem(i) =>
      if 0 <= i < |items| then Some(items[..i] + items[i + 1..]) else None
    case CreateItem(item, i) =>
      if 0 <= i <= |items| && ValidQuestion(item.question) then Some(items[..i] + [item] + items[i..]) else None
  }

  /** The items after the batch, or `None` when the batch is rejected. */
  function ApplyBatch(items: seq<Item>, requests: seq<Request>): Option<seq<Item>>
    decreases |requests|
  {
    if requests == [] then Some(items)
    else
      match ApplyRequest(items, requests[0])
      case None => None
      case Some(next) => ApplyBatch(next, requests[1..])
  }

  lemma {:induction false} ApplyBatchAppend(items: seq<Item>, a: seq<Request>, b: seq<Request>)
    ensures ApplyBatch(items, a + b) ==
      match ApplyBatch(items, a)
      case None => None
      case Some(middle) => ApplyBatch(middle, b)
    decreases |a|
  {
    if a == [] {
      assert a + b == b;
    } else {
      assert (a + b)[0] == a[0];
      assert (a + b)[1..] == a[1..] + b;
      match ApplyRequest(items, a[0])
      case None =>
      case Some(next) => ApplyBatchAppend(next, a[1..], b);
    }
  }

  // ---------------------------------------------------------------------
  // Questions

  /** The question of a field as written: the choice branches compare the
      kind with `single_choice` and `multiple_choice`, names a stored field
      never carries. */
  function QuestionAsWritten(f: ExportField): (q: Question)
    ensures q.required == f.required
    ensures ValidQuestion(q) <==> !f.fieldType.IsChoice()
  {
    Question(
      if f.fieldType.Name() == "text" then Some(false) else if f.fieldType.Name() == "para" then Some(true) else None,
      if f.fieldType.Name() == "single_choice" then Some(ChoiceQuestion(RadioChoice, f.options))
      else if f.fieldType.Name() == "multiple_choice" then Some(ChoiceQuestion(CheckboxChoice, f.options))
      else None,
      f.required)
  }

  /** The question of a field: text and paragraph fields become text
      questions, radio and checkbox fields choice questions with the field's
      options. */
  function QuestionFor(f: ExportField): (q: Question)
    ensures q.required == f.required
    ensures q.paragraph.Some? <==> !f.fieldType.IsChoice()
    ensures q.choice.Some? <==> f.fieldType.IsChoice()
    ensures q.choice.Some? ==> q.choice.value.options == f.options
    ensures ValidQuestion(q) <==> HasOptionsIfChoice(f)
  {
    match f.fieldType
    case Text => Question(Some(false), None, f.required)
    case Para => Question(Some(true), None, f.required)
    case Radio => Question(None, Some(ChoiceQuestion(RadioChoice, f.options)), f.required)
    case Checkbox => Question(None, Some(ChoiceQuestion(CheckboxChoice, f.options)), f.required)
  }

  /** The field kind a question stands for, if any. */
  function KindOfQuestion(q: Question): Option<FieldType> {
    if q.paragraph == Some(false) && q.choice.None? then Some(Text)
    else if q.paragraph == Some(true) && q.choice.None? then Some(Para)
    else if q.paragraph.None? && q.choice.Some? then
      Some(if q.choice.value.kind == RadioChoice then Radio else Checkbox)
    else None
  }

  /** A choice field carries at least one option. */
  predicate HasOptionsIfChoice(f: ExportField) {
    f.fieldType.IsChoice() ==> f.options.Some? && f.options.value != []
  }

  /** Every field kind survives the mapping, with its options and flag. */
  lemma QuestionRoundTrip(f: ExportField)
    ensures KindOfQuestion(QuestionFor(f)) == Some(f.fieldType)
  {
  }

  /** As written, a radio or checkbox field is exported as a question of no
      kind at all, while text and paragraph fields are exported as intended. */
  lemma ChoiceFieldsExportWithoutKind(f: ExportField)
    ensures f.fieldType.IsChoice() ==>
      QuestionAsWritten(f).paragraph.None? && QuestionAsWritten(f).choice.None?
    ensures f.fieldType.IsChoice() ==> KindOfQuestion(QuestionAsWritten(f)).None?
    ensures !f.fieldType.IsChoice() ==> QuestionAsWritten(f) == QuestionFor(f)
  {
    assert f.fieldType.Name() != "single_choice" && f.fieldType.Name() != "multiple_choice";
  }

  // ---------------------------------------------------------------------
  // Request lists

  /** The items the fields should become, in field order. */
  function Items(fields: seq<ExportField>, question: ExportField -> Question): (r: seq<Item>)
    ensures |r| == |fields|
    ensures forall i :: 0 <= i < |fields| ==> r[i] == Item(fields[i].fieldLabel, question(fields[i]))
  {
    seq(|fields|, i requires 0 <= i < |fields| => Item(fields[i].fieldLabel, question(fields[i])))
  }

  /** One create per field, at the field's position in the list. */
  function CreateRequests(fields: seq<ExportField>, question: ExportField -> Question): (r: seq<Request>)
    ensures |r| == |fields|
    ensures forall i :: 0 <= i < |fields| ==> r[i] == CreateItem(Item(fields[i].fieldLabel, question(fields[i])), i)
  {
    seq(|fields|, i requires 0 <= i < |fields| => CreateItem(Item(fields[i].fieldLabel, question(fields[i])), i))
  }

  /** Deletes at `from`, `from + 1`, ... */
  function AscendingDeletes(from: int, count: nat): (r: seq<Request>)
    ensures |r| == count && forall i :: 0 <= i < count ==> r[i] == DeleteItem(from + i)
  {
    seq(count, i requires 0 <= i < count => DeleteItem(from + i))
  }

  /** Deletes at `count - 1` down to `0`. */
  function DescendingDeletes(count: nat): (r: seq<Request>)
    ensures |r| == count && forall i :: 0 <= i < count ==> r[i] == DeleteItem(count - 1 - i)
  {
    seq(count, i requires 0 <= i < count => DeleteItem(count - 1 - i))
  }

  /** Every field's question is one the Forms API accepts. */
  predicate ValidQuestions(fields: seq<ExportField>, question: ExportField -> Question) {
    forall i :: 0 <= i < |fields| ==> ValidQuestion(question(fields[i]))
  }

  /** Creating the items one after the other into an empty form yields them
      in field order, unless one of the questions is rejected. */
  lemma {:induction false} CreatesFromEmpty(fields: seq<ExportField>, question: ExportField -> Question)
    ensures ApplyBatch([], CreateRequests(fields, question)) ==
      if ValidQuestions(fields, question) then Some(Items(fields, question)) else None
  {
    if fields != [] {
      var n := |fields| - 1;
      var init := fields[..n];
      var last := Item(fields[n].fieldLabel, question(fields[n]));
      assert CreateRequests(fields, question) == CreateRequests(init, question) + [CreateItem(last, n)];
      CreatesFromEmpty(init, question);
      ApplyBatchAppend([], CreateRequests(init, question), [CreateItem(last, n)]);
      if ValidQuestions(fields, question) {
        assert ValidQuestions(init, question) by {
          forall i | 0 <= i < n ensures ValidQuestion(question(init[i])) {
            assert init[i] == fields[i];
          }
        }
        var before := Items(init, question);
        assert ValidQuestion(question(fields[n]));
        assert before[..n] + [last] + before[n..] == Items(fields, question);
      } else if ValidQuestions(init, question) {
        var k :| 0 <= k < |fields| && !ValidQuestion(question(fields[k]));
        if k < n {
          assert false;
        }
        assert !ValidQuestion(last.question);
      }
    }
  }

  /** Ascending deletes over a shrinking list are rejected exactly when some
      index reaches past the end, that is when `from + 2 * (count - 1)` does. */
  lemma {:induction false} AscendingDeletesOutcome(items: seq<Item>, from: nat, count: nat)
    ensures ApplyBatch(items, AscendingDeletes(from, count)).None? <==>
      (count > 0 && from + 2 * (count - 1) >= |items|)
    decreases count
  {
    if count > 0 {
      var requests := AscendingDeletes(from, count);
      assert requests[1..] == AscendingDeletes(from + 1, count - 1);
      if from < |items| {
        var next := items[..from] + items[from + 1..];
        AscendingDeletesOutcome(next, from + 1, count - 1);
      }
    }
  }

  /** The request list as written: the current items are deleted at their
      original indices, then the fields are created. */
  method UpdateRequestsAsWritten(existing: seq<Item>, form: ExportForm) returns (requests: seq<Request>)
    ensures requests == AscendingDeletes(0, |existing|) + CreateRequests(form.fields, QuestionAsWritten)
  {
    requests := [];
    var index := 0;
    while index < |existing|
      invariant 0 <= index <= |existing|
      invariant requests == AscendingDeletes(0, index)
    {
      requests := requests + [DeleteItem(index)];
      index := index + 1;
    }
    requests := requests + CreateRequests(form.fields, QuestionAsWritten);
  }

  /** No field is a radio or checkbox field. */
  predicate NoChoiceFields(fields: seq<ExportField>) {
    forall i :: 0 <= i < |fields| ==> !fields[i].fieldType.IsChoice()
  }

  /** Every radio or checkbox field carries at least one option. */
  predicate ChoiceFieldsHaveOptions(fields: seq<ExportField>) {
    forall i :: 0 <= i < |fields| ==> HasOptionsIfChoice(fields[i])
  }

  /** As written, the Forms API accepts the questions exactly when no field
      is a choice field. */
  lemma AsWrittenQuestionsValid(fields: seq<ExportField>)
    ensures ValidQuestions(fields, QuestionAsWritten) <==> NoChoiceFields(fields)
  {
    if NoChoiceFields(fields) {
      forall i | 0 <= i < |fields| ensures ValidQuestion(QuestionAsWritten(fields[i])) {
        assert !fields[i].fieldType.IsChoice();
      }
    }
  }

  /** The intended questions are accepted exactly when every choice field
      has options. */
  lemma QuestionsForValid(fields: seq<ExportField>)
    ensures ValidQuestions(fields, QuestionFor) <==> ChoiceFieldsHaveOptions(fields)
  {
    if ChoiceFieldsHaveOptions(fields) {
      forall i | 0 <= i < |fields| ensures ValidQuestion(QuestionFor(fields[i])) {
        assert HasOptionsIfChoice(fields[i]);
      }
    }
  }

  /** As written, the batch is rejected as soon as the Google form holds two
      items or more, or one field is a radio or checkbox field; otherwise it
      yields the fields' items. */
  lemma AsWrittenBatchFails(existing: seq<Item>, fields: seq<ExportField>)
    ensures ApplyBatch(existing, AscendingDeletes(0, |existing|) + CreateRequests(fields, QuestionAsWritten)) ==
      if |existing| <= 1 && NoChoiceFields(fields) then Some(Items(fields, QuestionAsWritten)) else None
  {
    var deletes := AscendingDeletes(0, |existing|);
    ApplyBatchAppend(existing, deletes, CreateRequests(fields, QuestionAsWritten));
    AscendingDeletesOutcome(existing, 0, |existing|);
    if |existing| <= 1 {
      if |existing| == 1 {
        assert deletes[1..] == [];
        assert existing[..0] + existing[1..] == [];
      }
      assert ApplyBatch(existing, deletes) == Some([]);
      CreatesFromEmpty(fields, QuestionAsWritten);
      AsWrittenQuestionsValid(fields);
    }
  }

  /** `updateGoogleForm`'s request list, with the current items deleted from
      the last to the first so that every index is in range: the batch
      succeeds exactly when every choice field has options, and then leaves
      exactly the fields' items, in field order. */
  method UpdateRequests(existing: seq<Item>, form: ExportForm) returns (requests: seq<Request>)
    ensures requests == DescendingDeletes(|existing|) + CreateRequests(form.fields, QuestionFor)
    ensures ApplyBatch(existing, requests) ==
      if ChoiceFieldsHaveOptions(form.fields) then Some(Items(form.fields, QuestionFor)) else None
  {
    requests := [];
    var index := 0;
    assert existing[..|existing|] == existing;
    while index < |existing|
      invariant 0 <= index <= |existing|
      invariant requests == DescendingDeletes(|existing|)[..index]
      invariant ApplyBatch(existing, requests) == Some(existing[..|existing| - index])
    {
      var remaining := existing[..|existing| - index];
      var request := DeleteItem(|existing| - 1 - index);
      ApplyBatchAppend(existing, requests, [request]);
      assert remaining[..|existing| - 1 - index] + remaining[|existing| - index..] == existing[..|existing| - 1 - index];
      assert ApplyBatch(remaining, [request]) == Some(existing[..|existing| - 1 - index]);
      assert DescendingDeletes(|existing|)[..index + 1] == DescendingDeletes(|existing|)[..index] + [request];
      requests := requests + [request];
      index := index + 1;
    }
    assert existing[..0] == [];
    var creates := CreateRequests(form.fields, QuestionFor);
    ApplyBatchAppend(existing, requests, creates);
    CreatesFromEmpty(form.fields, QuestionFor);
    QuestionsForValid(form.fields);
    requests := requests + creates;
  }
}
