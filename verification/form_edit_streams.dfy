/** The streaming editing session: the agent's events are folded into a
    draft form while one NDJSON line per tool result or text delta is
    written to the response; the draft is then persisted and a single
    `done` line closes the stream, on success and on failure alike. */
module FormEditStreams {
  import opened Wrappers
  import opened FormTypes
  import opened FormStore
  import opened AiTools
  import opened JsonValue
  import JsText
  import FormEditUtils

  const SuccessFallback: string := "Form updated successfully."
  const IssuesMessage: string := "Form updated with some issues. Please review changes."

  /** The events of the agent's full stream that the session looks at. */
  datatype Event = ToolResult(output: ToolOutput) | TextDelta(text: string) | OtherEvent(kind: string)

  /** One NDJSON line of the response. */
  datatype Line = ToolLine(output: ToolOutput) | AssistantText(delta: string) | Done(message: string)

  /** What the agent delivers: the events seen before it stops, and whether
      it stops by throwing. */
  datatype AgentRun = AgentRun(events: seq<Event>, threw: bool)

  /** The response as the session sees it: lines written so far, and whether
      it has been ended. */
  class ResponseStream {
    var lines: seq<Line>
    var ended: bool

    constructor ()
      ensures lines == [] && !ended
    {
      lines := [];
      ended := false;
    }

    method Write(line: Line)
      modifies this
      ensures lines == old(lines) + [line] && ended == old(ended)
    {
      lines := lines + [line];
    }

    method End()
      modifies this
      ensures lines == old(lines) && ended
    {
      ended := true;
    }
  }

  // ---------------------------------------------------------------------
  // Specification of the fold

  /** The draft after one tool result. Results other than the four the agent
      registers leave it alone; a delete keeps the fields whose `id` differs
      from the result's `id`. */
  function Apply(draft: Form, o: ToolOutput): (r: Form)
    ensures r.(title := draft.title, description := draft.description, fields := draft.fields) == draft
    ensures !o.TitleUpdated? ==> r.title == draft.title
    ensures !o.DescriptionUpdated? ==> r.description == draft.description
    ensures !o.FieldAdded? && !o.FieldDeleted? ==> r.fields == draft.fields
    ensures o.FieldAdded? ==> (|r.fields| == |draft.fields| + 1
      && r.fields[..|draft.fields|] == draft.fields && r.fields[|draft.fields|] == o.field)
    ensures o.FieldDeleted? ==> (!HasId(r.fields, o.id) && |r.fields| <= |draft.fields|)
  {
    match o
    case TitleUpdated(title) => draft.(title := title)
    case DescriptionUpdated(description) => draft.(description := Some(description))
    case FieldAdded(field) => draft.(fields := draft.fields + [field])
    case FieldDeleted(id, _) => draft.(fields := FormEditUtils.WithoutId(draft.fields, id))
    case _ => draft
  }

  /** The draft after a sequence of events: it keeps every attribute of the
      initial form except title, description and fields; in particular `_id`
      and `userId`. */
  function Draft(initial: Form, events: seq<Event>): (r: Form)
    ensures r.(title := initial.title, description := initial.description, fields := initial.fields) == initial
  {
    if events == [] then initial
    else
      var prior := Draft(initial, events[..|events| - 1]);
      match events[|events| - 1]
      case ToolResult(o) => Apply(prior, o)
      case _ => prior
  }

  /** The lines an event writes. */
  function LinesOf(e: Event): seq<Line> {
    match e
    case ToolResult(o) => [ToolLine(o)]
    case TextDelta(text) => [AssistantText(text)]
    case OtherEvent(_) => []
  }

  /** The lines written for a sequence of events, before the closing line. */
  function EventLines(events: seq<Event>): (r: seq<Line>)
    ensures |r| <= |events|
    ensures forall j :: 0 <= j < |r| ==> !r[j].Done?
  {
    if events == [] then []
    else EventLines(events[..|events| - 1]) + LinesOf(events[|events| - 1])
  }

  /** The text deltas, in order. */
  function Deltas(events: seq<Event>): seq<string> {
    if events == [] then []
    else
      var rest := Deltas(events[..|events| - 1]);
      match events[|events| - 1]
      case TextDelta(text) => rest + [text]
      case _ => rest
  }

  /** The tool results, in order. */
  function ToolResults(events: seq<Event>): seq<ToolOutput> {
    if events == [] then []
    else
      var rest := ToolResults(events[..|events| - 1]);
      match events[|events| - 1]
      case ToolResult(o) => rest + [o]
      case _ => rest
  }

  /** The fields carried by `add_field` results, in order. */
  function AddedFields(events: seq<Event>): seq<Field> {
    if events == [] then []
    else
      var rest := AddedFields(events[..|events| - 1]);
      match events[|events| - 1]
      case ToolResult(FieldAdded(f)) => rest + [f]
      case _ => rest
  }

  /** The strings joined end to end. */
  function Concat(parts: seq<string>): string {
    if parts == [] then "" else Concat(parts[..|parts| - 1]) + parts[|parts| - 1]
  }

  /** The tool results a client reads back from the lines. */
  function LineOutputs(lines: seq<Line>): seq<ToolOutput> {
    if lines == [] then []
    else
      var rest := LineOutputs(lines[..|lines| - 1]);
      match lines[|lines| - 1]
      case ToolLine(o) => rest + [o]
      case _ => rest
  }

  /** The deltas a client reads back from the lines. */
  function LineDeltas(lines: seq<Line>): seq<string> {
    if lines == [] then []
    else
      var rest := LineDeltas(lines[..|lines| - 1]);
      match lines[|lines| - 1]
      case AssistantText(d) => rest + [d]
      case _ => rest
  }

  /** The closing message of a successful session: the trimmed text, or the
      fixed fallback when that is empty. */
  function SuccessMessage(finalText: string): (m: string)
    ensures m != ""
    ensures JsText.Trim(finalText) != "" ==> m == JsText.Trim(finalText)
    ensures JsText.Trim(finalText) == "" ==> m == SuccessFallback
  {
    var trimmed := JsText.Trim(finalText);
    if trimmed != "" then trimmed else SuccessFallback
  }

  predicate IsTitleEvent(e: Event) {
    e.ToolResult? && e.output.TitleUpdated?
  }

  predicate IsDescriptionEvent(e: Event) {
    e.ToolResult? && e.output.DescriptionUpdated?
  }

  /** `events[k]` is the last `update_title` result. */
  predicate LastTitleAt(events: seq<Event>, k: int) {
    0 <= k < |events| && IsTitleEvent(events[k])
    && forall m :: k < m < |events| ==> !IsTitleEvent(events[m])
  }

  /** `events[k]` is the last `update_description` result. */
  predicate LastDescriptionAt(events: seq<Event>, k: int) {
    0 <= k < |events| && IsDescriptionEvent(events[k])
    && forall m :: k < m < |events| ==> !IsDescriptionEvent(events[m])
  }

  predicate IsDeleteEvent(e: Event) {
    e.ToolResult? && e.output.FieldDeleted?
  }

  /** Writing is compositional: the lines of two event runs follow each other. */
  lemma {:induction false} EventLinesAppend(a: seq<Event>, b: seq<Event>)
    ensures EventLines(a + b) == EventLines(a) + EventLines(b)
  {
    if b == [] {
      assert a + b == a;
    } else {
      var init := b[..|b| - 1];
      assert (a + b)[..|a + b| - 1] == a + init;
      EventLinesAppend(a, init);
    }
  }

  /** Each tool result writes exactly one line carrying it and each delta
      exactly one `assistant_text` line carrying it, in event order; other
      events write nothing. */
  lemma {:induction false} LinesCarryEvents(events: seq<Event>)
    ensures LineOutputs(EventLines(events)) == ToolResults(events)
    ensures LineDeltas(EventLines(events)) == Deltas(events)
    ensures |EventLines(events)| == |ToolResults(events)| + |Deltas(events)|
  {
    if events != [] {
      var init := events[..|events| - 1];
      LinesCarryEvents(init);
      var before := EventLines(init);
      match events[|events| - 1]
      case ToolResult(o) =>
        assert (before + [ToolLine(o)])[..|before|] == before;
      case TextDelta(text) =>
        assert (before + [AssistantText(text)])[..|before|] == before;
      case OtherEvent(_) =>
        assert before + [] == before;
    }
  }

  /** The draft's title is that of the last `update_title` result, or the
      initial one when there is none. */
  lemma {:induction false} TitleIsLastUpdate(initial: Form, events: seq<Event>)
    ensures (forall k :: 0 <= k < |events| ==> !IsTitleEvent(events[k])) ==>
      Draft(initial, events).title == initial.title
    ensures forall k :: LastTitleAt(events, k) ==> Draft(initial, events).title == events[k].output.title
  {
    if events != [] {
      var n := |events| - 1;
      var init := events[..n];
      TitleIsLastUpdate(initial, init);
      if IsTitleEvent(events[n]) {
        assert Draft(initial, events).title == events[n].output.title;
        forall k | LastTitleAt(events, k)
          ensures k == n
        {
        }
      } else {
        assert Draft(initial, events).title == Draft(initial, init).title;
        forall k | LastTitleAt(events, k)
          ensures Draft(initial, events).title == events[k].output.title
        {
          assert forall m :: k < m < n ==> init[m] == events[m];
          assert LastTitleAt(init, k);
        }
        assert forall k :: 0 <= k < n ==> init[k] == events[k];
      }
    }
  }

  /** The draft's description is that of the last `update_description`
      result, or the initial one when there is none. */
  lemma {:induction false} DescriptionIsLastUpdate(initial: Form, events: seq<Event>)
    ensures (forall k :: 0 <= k < |events| ==> !IsDescriptionEvent(events[k])) ==>
      Draft(initial, events).description == initial.description
    ensures forall k :: LastDescriptionAt(events, k) ==>
      Draft(initial, events).description == Some(events[k].output.description)
  {
    if events != [] {
      var n := |events| - 1;
      var init := events[..n];
      DescriptionIsLastUpdate(initial, init);
      if IsDescriptionEvent(events[n]) {
        assert Draft(initial, events).description == Some(events[n].output.description);
        forall k | LastDescriptionAt(events, k)
          ensures k == n
        {
        }
      } else {
        assert Draft(initial, events).description == Draft(initial, init).description;
        forall k | LastDescriptionAt(events, k)
          ensures Draft(initial, events).description == Some(events[k].output.description)
        {
          assert forall m :: k < m < n ==> init[m] == events[m];
          assert LastDescriptionAt(init, k);
        }
        assert forall k :: 0 <= k < n ==> init[k] == events[k];
      }
    }
  }

  /** Without deletes, the added fields are appended as given: no duplicate
      check and no renumbering. */
  lemma {:induction false} AddsAppendVerbatim(initial: Form, events: seq<Event>)
    requires forall k :: 0 <= k < |events| ==> !IsDeleteEvent(events[k])
    ensures Draft(initial, events).fields == initial.fields + AddedFields(events)
  {
    if events != [] {
      var init := events[..|events| - 1];
      AddsAppendVerbatim(initial, init);
    }
  }

  /** Appending a field whose id is already present succeeds here, while the
      reconciler refuses it. */
  lemma DuplicateAddIsAppended(draft: Form, field: Field)
    requires HasId(draft.fields, field.id)
    ensures Apply(draft, FieldAdded(field)).fields == draft.fields + [field]
    ensures FormEditUtils.ApplyToolAction(draft, FormEditUtils.AddField(field)).Failure?
  {
  }

  /** A `delete_field` result removes every field with its id and keeps the
      others in order: the survivors are the fields at the ascending
      positions `KeptIndices`. */
  lemma DeleteRemovesField(draft: Form, id: string, index: int)
    ensures !HasId(Apply(draft, FieldDeleted(id, index)).fields, id)
    ensures forall i :: 0 <= i < |draft.fields| && draft.fields[i].id != id ==>
      draft.fields[i] in Apply(draft, FieldDeleted(id, index)).fields
    ensures var kept := FormEditUtils.KeptIndices(draft.fields, id);
      && |Apply(draft, FieldDeleted(id, index)).fields| == |kept|
      && forall k :: 0 <= k < |kept| ==> Apply(draft, FieldDeleted(id, index)).fields[k] == draft.fields[kept[k]]
  {
    FormEditUtils.WithoutIdKeepsIndices(draft.fields, id);
    var kept := FormEditUtils.KeptIndices(draft.fields, id);
    forall i | 0 <= i < |draft.fields| && draft.fields[i].id != id
      ensures draft.fields[i] in FormEditUtils.WithoutId(draft.fields, id)
    {
      var k :| 0 <= k < |kept| && kept[k] == i;
      assert FormEditUtils.WithoutId(draft.fields, id)[k] == draft.fields[i];
    }
  }

  // As written, the delete branch compares each field with the result's
  // `fieldId` member, which a `delete_field` result does not have.

  /** The `fieldId` member of a tool result's JSON, `None` when absent. */
  function FieldIdMember(o: ToolOutput): Option<Json> {
    var members := Encode(o).members;
    if "fieldId" in members then Some(members["fieldId"]) else None
  }

  /** The fields kept by a filter that compares each field's id with
      `target` by strict inequality; an absent member never equals a string. */
  function KeepUnequal(fields: seq<Field>, target: Option<Json>): (r: seq<Field>)
    ensures |r| <= |fields|
    ensures forall j :: 0 <= j < |r| ==> r[j] in fields && Some(JStr(r[j].id)) != target
  {
    if fields == [] then []
    else
      var rest := KeepUnequal(fields[..|fields| - 1], target);
      if Some(JStr(fields[|fields| - 1].id)) != target then
        var r := rest + [fields[|fields| - 1]];
        assert forall j :: 0 <= j < |rest| ==> r[j] == rest[j];
        r
      else rest
  }

  /** The delete branch as written. */
  function DeleteAsWritten(draft: Form, o: ToolOutput): (r: Form)
    requires o.FieldDeleted?
    ensures r.(fields := draft.fields) == draft
    ensures forall j :: 0 <= j < |r.fields| ==> r.fields[j] in draft.fields
    ensures FieldIdMember(o).None? ==> r == draft
  {
    KeepAllAbsent(draft.fields);
    draft.(fields := KeepUnequal(draft.fields, FieldIdMember(o)))
  }

  /** As written, deleting a present field leaves the draft unchanged, while
      the corrected branch removes it. */
  lemma {:induction false} DeleteAsWrittenIsNoOp(draft: Form, id: string, index: int)
    requires HasId(draft.fields, id)
    ensures DeleteAsWritten(draft, FieldDeleted(id, index)) == draft
    ensures Apply(draft, FieldDeleted(id, index)) != draft
  {
    var members := Encode(FieldDeleted(id, index)).members;
    assert members.Keys == {"type", "id", "index"};
    assert "fieldId" !in members;
    KeepAllAbsent(draft.fields);
    DeleteRemovesField(draft, id, index);
  }

  lemma {:induction false} KeepAllAbsent(fields: seq<Field>)
    ensures KeepUnequal(fields, None) == fields
  {
    if fields != [] {
      KeepAllAbsent(fields[..|fields| - 1]);
    }
  }

  /** What one more event adds to the draft, the lines and the text. */
  lemma PrefixStep(initial: Form, start: seq<Line>, events: seq<Event>, i: int)
    requires 0 <= i < |events|
    ensures Draft(initial, events[..i + 1]) ==
      if events[i].ToolResult? then Apply(Draft(initial, events[..i]), events[i].output)
      else Draft(initial, events[..i])
    ensures start + EventLines(events[..i + 1]) == start + EventLines(events[..i]) + LinesOf(events[i])
    ensures Concat(Deltas(events[..i + 1])) ==
      if events[i].TextDelta? then Concat(Deltas(events[..i])) + events[i].text
      else Concat(Deltas(events[..i]))
  {
    var prefix := events[..i + 1];
    assert prefix[..i] == events[..i];
    assert EventLines(prefix) == EventLines(events[..i]) + LinesOf(events[i]);
    if events[i].TextDelta? {
      var parts := Deltas(events[..i]) + [events[i].text];
      assert parts[..|parts| - 1] == Deltas(events[..i]);
    }
  }

  // ---------------------------------------------------------------------
  // The session

  /** The loop body's four type tests, each updating the draft in place;
      together they do what `Apply` specifies. */
  method FoldToolResult(draft: Form, toolResult: ToolOutput) returns (updated: Form)
    ensures updated == Apply(draft, toolResult)
  {
    updated := draft;
    if toolResult.TitleUpdated? {
      updated := updated.(title := toolResult.title);
    }
    if toolResult.DescriptionUpdated? {
      updated := updated.(description := Some(toolResult.description));
    }
    if toolResult.FieldAdded? {
      updated := updated.(fields := updated.fields + [toolResult.field]);
    }
    if toolResult.FieldDeleted? {
      updated := updated.(fields := FormEditUtils.WithoutId(updated.fields, toolResult.id));
    }
  }

  /** The `for await` loop of `agentQuery`: every tool result is folded into
      the draft and written as a line, every text delta is collected and
      written as an `assistant_text` line. */
  method ForwardEvents(events: seq<Event>, res: ResponseStream, initial: Form)
    returns (finalText: string, updatedForm: Form)
    modifies res
    ensures res.lines == old(res.lines) + EventLines(events) && res.ended == old(res.ended)
    ensures finalText == Concat(Deltas(events)) && updatedForm == Draft(initial, events)
  {
    finalText := "";
    updatedForm := initial;
    ghost var start := res.lines;
    var i := 0;
    assert events[..i] == [];
    while i < |events|
      invariant 0 <= i <= |events|
      invariant res.lines == start + EventLines(events[..i]) && res.ended == old(res.ended)
      invariant finalText == Concat(Deltas(events[..i]))
      invariant updatedForm == Draft(initial, events[..i])
    {
      PrefixStep(initial, start, events, i);
      match events[i] {
        case ToolResult(toolResult) =>
          updatedForm := FoldToolResult(updatedForm, toolResult);
          res.Write(ToolLine(toolResult));
        case TextDelta(text) =>
          finalText := finalText + text;
          res.Write(AssistantText(text));
        case OtherEvent(_) =>
          assert LinesOf(events[i]) == [];
      }
      i := i + 1;
    }
    assert events[..i] == events;
  }

  /** `agentQuery` from the first event to the end of the response. The
      draft starts as `form` with `_id` and `userId` overwritten; a throw of
      the agent or of the store ends the stream with the issues message and
      persists nothing. */
  method AgentQuery(run: AgentRun, res: ResponseStream, store: Store, formId: string, userId: string,
                    form: Form, allowUpsert: bool)
    modifies res, store
    ensures res.ended && store.reachable == old(store.reachable)
    ensures var draft := Draft(form.(id := formId, userId := userId), run.events);
      if !run.threw && old(store.reachable) then
        res.lines == old(res.lines) + EventLines(run.events) + [Done(SuccessMessage(Concat(Deltas(run.events))))]
        && store.forms == Upserted(old(store.forms), formId, draft, allowUpsert)
      else
        res.lines == old(res.lines) + EventLines(run.events) + [Done(IssuesMessage)]
        && store.forms == old(store.forms)
  {
    var finalText, updatedForm := ForwardEvents(run.events, res, form.(id := formId, userId := userId));
    if run.threw {
      res.Write(Done(IssuesMessage));
      res.End();
      return;
    }
    var saved := store.FindByIdAndUpdate(formId, updatedForm, allowUpsert);
    if saved.Failure? {
      res.Write(Done(IssuesMessage));
      res.End();
      return;
    }
    res.Write(Done(SuccessMessage(finalText)));
    res.End();
  }
}
