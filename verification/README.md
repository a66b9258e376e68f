# FastForm form-editing core, modelled in Dafny

FastForm lets a user build a form by talking to an agent. The agent calls
tools (`update_title`, `update_description`, `add_field`, `delete_field`,
and the unregistered `update_field` and `move_field`); each tool returns a
tagged operation. The backend streams those operations to the browser as
newline-delimited JSON while folding them into a draft form, persists the
draft, and closes the stream with a single `done` line. The browser replays
the same operations on its own copy of the form. A finished form can be
exported to Google Forms: the Google form's items are rebuilt from the
fields of the form sent in the export request's body.

This project models that core:

- `FormTypes`: the stored form and field records.
- `FormEditUtils`: the backend reconciler (`normalizeLocations` and
  `applyToolAction`), which refuses duplicate ids and unknown deletes and
  renumbers locations densely.
- `FormBuilderUtils`: the browser-side applier (`applyOperation`,
  `addField`, `deleteField`). The field list is a class, `FieldArray`, so
  the model shows that the result shares the caller's array. `addField`
  edits that array in place and `deleteField` replaces it.
- `FormEditStreams`: the streaming session (`agentQuery`). It is a method
  with a loop over the agent's events, a `ResponseStream` object whose
  `Write` appends a line, and a store that may throw. Specification
  functions (`Draft`, `EventLines`, `Deltas`) describe what the loop
  computes.
- `FormEditState`: session setup (`resolveFormState`,
  `appendFormStateMessage`).
- `FormStore`: the document store. It is a class holding a map from form id
  to form, plus a flag for whether the store answers.
- `AiTools` and `OperationSchema`: the tools' `execute` bodies, the JSON
  they write, the add-field input schema, and the operation schema as a
  validity predicate with a parser.
- `GoogleFormSchema`, `GoogleFormHelpers` and `GoogleFormService`: the
  export body schema, null-body defaulting, the transient-error classifier,
  and the request list of `updateGoogleForm` together with the meaning the
  Forms API gives a batch.
- `FormRetrieveParsers` and `AuthParsers`: query, path and header parsing.
- `AuthStore`: the browser's authentication store.
- `JsText`, `JsonValue` and `Wrappers`: the JavaScript built-ins the core
  relies on (`trim`, `parseInt`, `String(n)`, case-insensitive search),
  untyped JSON values, and `Option`/`Result`.

Where the written description of the system and the code disagree, the
model follows the code:

- The reconciler appends an added field at the end and then renumbers. It
  does not insert at the requested position.
- Neither the reconciler nor the add-field tool requires options for a
  choice field.
- The streaming session appends a field whose id is already present. It
  does not fail with a duplicate-id error.

## Model

| member | source | states |
|---|---|---|
| FormTypes.FieldTypeNamed | backend/src/types/Form.DB.ts:4 | a kind name is recognised exactly when it is one of the four kinds, and then names that kind |
| FormEditUtils.NormalizeLocations | backend/src/controllers/form-edit/formEdit.utils.ts:9-14 | same length, every field keeps everything but its location, locations become 0..n-1 in list order |
| FormEditUtils.KeptIndices | backend/src/controllers/form-edit/formEdit.utils.ts:52 | the positions surviving the id filter are in range, strictly increasing, exactly those whose id differs, and at least one fewer when the id is present |
| FormEditUtils.WithoutIdKeepsIndices | backend/src/controllers/form-edit/formEdit.utils.ts:52 | the id filter keeps exactly the fields at the surviving positions, in order |
| FormEditUtils.WithoutId | backend/src/controllers/form-edit/formEdit.utils.ts:52 | no field with the deleted id survives the filter, nothing new appears, and the list does not grow |
| FormEditUtils.WithoutIdKeepsUniqueIds | backend/src/controllers/form-edit/formEdit.utils.ts:52 | the filter keeps ids unique |
| FormEditUtils.ApplyToolAction | backend/src/controllers/form-edit/formEdit.utils.ts:16-63 | fails exactly on a duplicate add, a delete of an absent id, or an unknown action, with the matching error; otherwise changes only title, description or fields, and leaves dense locations after an add or a delete |
| FormEditUtils.NormalizeDenseIsIdentity | backend/src/controllers/form-edit/formEdit.utils.ts:9-14 | renumbering an already dense list changes nothing |
| FormEditUtils.UpdateTitleChangesOnlyTitle | backend/src/controllers/form-edit/formEdit.utils.ts:18-22 | `update_title` always succeeds and replaces only the title |
| FormEditUtils.UpdateDescriptionChangesOnlyDescription | backend/src/controllers/form-edit/formEdit.utils.ts:24-28 | `update_description` always succeeds and replaces only the description |
| FormEditUtils.AddFieldAppendsAtEnd | backend/src/controllers/form-edit/formEdit.utils.ts:30-42 | a new id is appended at the end whatever location it asks for; earlier fields keep their order and contents; locations are renumbered |
| FormEditUtils.AddFieldKeepsDenseFields | backend/src/controllers/form-edit/formEdit.utils.ts:30-42 | adding to a dense list leaves the old fields as they were and gives the new one location n |
| FormEditUtils.DeleteFieldRemovesAndRenumbers | backend/src/controllers/form-edit/formEdit.utils.ts:44-59 | deleting a present id removes it, shortens the list and keeps the other fields in order, renumbered |
| FormEditUtils.ApplyKeepsInvariants | backend/src/controllers/form-edit/formEdit.utils.ts:16-63 | unique ids and dense locations are preserved by every successful action; unknown actions fail |
| FormEditUtils.DeleteFirstOfTwoRenumbers | backend/src/controllers/form-edit/formEdit.utils.ts:44-59 | deleting the first of two fields moves the second to location 0 |
| FormBuilderUtils.Key | frontend/src/components/formbuilder/form.utils.ts:46 | a field is matched on its `id` when that is a non-empty string, otherwise on its `_id` |
| FormBuilderUtils.KindOf | frontend/src/components/formbuilder/form.utils.ts:41 | the kind is `fieldType` when present, otherwise `type`; none only when both are missing |
| FormBuilderUtils.InsertIndex | frontend/src/components/formbuilder/form.utils.ts:42-43 | a numeric location is used as given; without one the insert position is the end of the array |
| FormBuilderUtils.FirstMatch | frontend/src/components/formbuilder/form.utils.ts:45-47 | the first position whose `id` (or `_id`) is the id, or -1 when none is |
| FormBuilderUtils.SpliceIndex | frontend/src/components/formbuilder/form.utils.ts:74 | where `splice` inserts: the start when in range, counted from the end when negative, clamped to both ends |
| FormBuilderUtils.BuildField | frontend/src/components/formbuilder/form.utils.ts:49-68 | an entry exists exactly for the four known kinds; it carries the id, kind, label, flag and insert location; choice kinds get the options or `[]`, text kinds none |
| FormBuilderUtils.AddedFields | frontend/src/components/formbuilder/form.utils.ts:36-79 | an unknown kind changes nothing; the array grows by one exactly when the kind is known and no entry has the id, and otherwise keeps its length; the built entry is in the result |
| FormBuilderUtils.WithoutKey | frontend/src/components/formbuilder/form.utils.ts:89-92 | no kept field has the id as key, every field whose key differs is kept, and nothing else appears |
| FormBuilderUtils.KeptKeyIndices | frontend/src/components/formbuilder/form.utils.ts:89-92 | the positions whose key differs from the id, in range and strictly increasing, none left out |
| FormBuilderUtils.WithoutKeyKeepsIndices | frontend/src/components/formbuilder/form.utils.ts:89-92 | the filter keeps exactly the fields at those positions, in order |
| FormBuilderUtils.DeletedFields | frontend/src/components/formbuilder/form.utils.ts:81-95 | an in-range index shortens the array by one; otherwise no field with the id as key survives; nothing new appears |
| FormBuilderUtils.FieldArray.FindIndexByKey | frontend/src/components/formbuilder/form.utils.ts:45-47 | the loop finds the first position whose key matches, or -1 |
| FormBuilderUtils.FieldArray.Assign | frontend/src/components/formbuilder/form.utils.ts:72 | the array has one entry replaced |
| FormBuilderUtils.FieldArray.SpliceInsert | frontend/src/components/formbuilder/form.utils.ts:74 | the array has the entry inserted at the clamped splice position |
| FormBuilderUtils.AddField | frontend/src/components/formbuilder/form.utils.ts:36-79 | the caller's array is changed in place to the added list, and the returned copy shares it |
| FormBuilderUtils.DeleteField | frontend/src/components/formbuilder/form.utils.ts:81-95 | the form gets a fresh filtered array, and the previous array is left untouched |
| FormBuilderUtils.ApplyOperation | frontend/src/components/formbuilder/form.utils.ts:1-34 | missing title, description and fields default to `""`, `""` and `[]`; the operation's effect on title, description or fields; the caller's array is changed only by an add, and is shared unless the operation was a delete |
| FormBuilderUtils.AddExistingReplacesInPlace | frontend/src/components/formbuilder/form.utils.ts:70-76 | an add whose id is present replaces that entry at its index and nothing else |
| FormBuilderUtils.AddNewInsertsAtLocation | frontend/src/components/formbuilder/form.utils.ts:70-76 | an add with a new id inserts at the clamped splice position of its location (the end when it has none) without touching the other entries |
| FormBuilderUtils.AddUnknownKindIsNoOp | frontend/src/components/formbuilder/form.utils.ts:70 | an add of any other kind changes nothing |
| FormBuilderUtils.DeleteByIndexRemovesPosition | frontend/src/components/formbuilder/form.utils.ts:82-87 | an in-range numeric index removes exactly that position, whatever the id |
| FormBuilderUtils.DeleteByKeyWithoutMatchIsNoOp | frontend/src/components/formbuilder/form.utils.ts:89-92 | a delete by key of an absent id leaves the array as it was |
| FormBuilderUtils.InsertBeforeBreaksDensity | frontend/src/components/formbuilder/form.utils.ts:74 | the client does not renumber: an insert in front gives two fields the same location |
| FormBuilderUtils.DeleteFirstLeavesGap | frontend/src/components/formbuilder/form.utils.ts:87 | the client does not renumber on delete either: location 0 becomes empty |
| AiTools.Encode | backend/src/ai.tools.ts:11-108 | every result carries its tool's `type` tag |
| AiTools.ParseAddFieldInput | backend/src/ai.tools.ts:33-43 | the add-field input is accepted exactly when it has the string, boolean and number keys and a known kind, with options optional for every kind; the parsed field carries those values |
| AiTools.AddFieldInputRoundTrip | backend/src/ai.tools.ts:44-49 | every field the add-field tool emits is read back unchanged by its input schema |
| AiTools.AddFieldAcceptsChoiceWithoutOptions | backend/src/ai.tools.ts:38-41 | a radio field without options is accepted |
| AiTools.UpdateTitleTool | backend/src/ai.tools.ts:11-13 | the written object has exactly the keys `type` and `title`, with the tag `update_title` and the given title |
| AiTools.UpdateDescriptionTool | backend/src/ai.tools.ts:23-25 | the written object has exactly the keys `type` and `description`, with the tag and the given description |
| AiTools.AddFieldTool | backend/src/ai.tools.ts:44-49 | the written object has exactly the keys `type` and `field`, and the input schema reads the written field back as the input |
| AiTools.UpdateFieldTool | backend/src/ai.tools.ts:65-72 | the written object has exactly the keys `id`, `type`, `index` and `field`, with the input's id and index |
| AiTools.DeleteFieldTool | backend/src/ai.tools.ts:83-89 | the written object has exactly the keys `id`, `type` and `index`, with the given id and index |
| AiTools.MoveFieldTool | backend/src/ai.tools.ts:101-107 | the written object has exactly the keys `id`, `type`, `fromIndex` and `toIndex`, with the given id and positions |
| AiTools.UpdateFieldSplitsInput | backend/src/ai.tools.ts:65-72 | `update_field` lifts `id` and `index`; the nested field holds exactly the other input keys with the same values |
| OperationSchema.ParseField | backend/src/types/Operation.ts:21-60 | a parsed field carries the object's values; choice kinds carry their options, other kinds none |
| OperationSchema.Parse | backend/src/types/Operation.ts:3-63 | parsing succeeds exactly on valid objects; the result is well formed and carries the object's tag, the new title or description text, and for an added field the field read from the object's `field` member |
| OperationSchema.ParseEncodeRoundTrip | backend/src/types/Operation.ts:3-63 | well-formed operations survive encoding and parsing; an encoded operation is valid exactly when a choice field has at least one option |
| OperationSchema.SchemaFieldRoundTrip | backend/src/types/Operation.ts:21-60 | a field object passes the field union exactly when a choice field has at least one option, and a well-formed field is read back unchanged |
| OperationSchema.ValidField | backend/src/types/Operation.ts:21-60 | an accepted field names one of the four kinds, and a radio or checkbox field brings at least one option |
| OperationSchema.Valid | backend/src/types/Operation.ts:3-63 | only the `update_title`, `update_description` and `add_field` tags are accepted |
| OperationSchema.ToolOutputsAgainstSchema | backend/src/types/Operation.ts:3-63 | title and description results always pass the schema, add results exactly when a choice field has an option, and update, delete and move results never |
| OperationSchema.AddedFieldAgainstSchema | backend/src/types/Operation.ts:21-60 | the field an `add_field` result carries passes the field union exactly when a choice field has at least one option |
| FormStore.Upserted | backend/src/controllers/form-edit/formEdit.streams.ts:90-93 | a stored form is replaced; a missing one is inserted only with upsert; other forms are untouched |
| FormStore.Store.FindById | backend/src/controllers/form-edit/formEdit.state.ts:29 | the stored form or none; a failure when the store does not answer |
| FormStore.Store.Insert | backend/src/controllers/form-edit/formEdit.state.ts:19-26 | a new id is stored; an existing id or an unreachable store fails and changes nothing |
| FormStore.Store.FindByIdAndUpdate | backend/src/controllers/form-edit/formEdit.streams.ts:90-93 | the store becomes the upserted map, and the stored document is returned |
| FormEditState.NewForm | backend/src/controllers/form-edit/formEdit.state.ts:19-25 | a created form has the given ids, the default title, an empty description and no fields |
| FormEditState.ResolveFormState | backend/src/controllers/form-edit/formEdit.state.ts:5-39 | `create` stores and returns a new form (failing when the id is taken); `edit` returns the stored form or null and changes nothing; any other kind returns the fallback |
| FormEditState.AppendFormStateMessage | backend/src/controllers/form-edit/formEdit.state.ts:41-58 | the conversation is kept as a prefix; one system message is added whose id reads back as the clock value and whose parts are the label and the serialised form |
| FormEditStreams.ResponseStream.Write | backend/src/controllers/form-edit/formEdit.streams.ts:75 | a write appends one line |
| FormEditStreams.ResponseStream.End | backend/src/controllers/form-edit/formEdit.streams.ts:102 | ending keeps the lines |
| FormEditStreams.EventLines | backend/src/controllers/form-edit/formEdit.streams.ts:52-88 | no event writes a `done` line, and there are no more lines than events |
| FormEditStreams.SuccessMessage | backend/src/controllers/form-edit/formEdit.streams.ts:95-100 | the closing message is never empty: the trimmed text when that is not empty, else the fixed fallback |
| FormEditStreams.FoldToolResult | backend/src/controllers/form-edit/formEdit.streams.ts:56-72 | the four type tests of the loop body update the draft as `Apply` specifies: title and description replaced, field appended, field with the result's id removed |
| FormEditStreams.ForwardEvents | backend/src/controllers/form-edit/formEdit.streams.ts:52-88 | after the event loop the response holds the event lines, the text is the concatenated deltas and the draft is the fold of the tool results; the response is not ended |
| FormEditStreams.AgentQuery | backend/src/controllers/form-edit/formEdit.streams.ts:44-113 | the response is the event lines followed by exactly one `done`; on success the store holds the upserted draft and `done` carries the success message over the concatenated deltas; if the agent or the store throws, the store is unchanged and `done` carries the issues message; the response is ended |
| FormEditStreams.EventLinesAppend | backend/src/controllers/form-edit/formEdit.streams.ts:52-88 | the lines of two event runs follow each other |
| FormEditStreams.LinesCarryEvents | backend/src/controllers/form-edit/formEdit.streams.ts:52-88 | each tool result gives one line carrying it, each delta one `assistant_text` line carrying it, in event order; other events give none |
| FormEditStreams.Apply | backend/src/controllers/form-edit/formEdit.streams.ts:53-72 | a tool result changes only the attribute it addresses: a title, a description, a field appended at the end, or the removal of every field with the id; other results change nothing |
| FormEditStreams.Draft | backend/src/controllers/form-edit/formEdit.streams.ts:46-72 | the draft keeps every attribute of the initial form (`_id` and `userId` among them) except title, description and fields |
| FormEditStreams.TitleIsLastUpdate | backend/src/controllers/form-edit/formEdit.streams.ts:56-58 | the draft's title is that of the last `update_title` result, or the initial one |
| FormEditStreams.DescriptionIsLastUpdate | backend/src/controllers/form-edit/formEdit.streams.ts:60-62 | the draft's description is that of the last `update_description` result, or the initial one |
| FormEditStreams.AddsAppendVerbatim | backend/src/controllers/form-edit/formEdit.streams.ts:64-66 | without deletes, the added fields are appended in order, unchanged, with no duplicate check and no renumbering |
| FormEditStreams.DuplicateAddIsAppended | backend/src/controllers/form-edit/formEdit.streams.ts:64-66 | a duplicate id is appended here while the reconciler refuses it |
| FormEditStreams.DeleteRemovesField | backend/src/controllers/form-edit/formEdit.streams.ts:68-72 | a delete removes every field with the result's id and keeps all others, in their order |
| FormEditStreams.KeepUnequal | backend/src/controllers/form-edit/formEdit.streams.ts:69-71 | the kept fields come from the list and none has an id equal to the target |
| FormEditStreams.DeleteAsWritten | backend/src/controllers/form-edit/formEdit.streams.ts:68-72 | as written, a delete changes only the fields, keeps only fields it had, and keeps all of them when the result has no `fieldId` |
| FormEditStreams.DeleteAsWrittenIsNoOp | backend/src/controllers/form-edit/formEdit.streams.ts:68-72 | as written, a delete of a present field leaves the draft unchanged |
| GoogleFormSchema.ValidField | backend/src/controllers/google-form/googleForm.schema.ts:12-23 | an accepted field has a non-empty label and one of the four kind names |
| GoogleFormSchema.ValidBody | backend/src/controllers/google-form/googleForm.schema.ts:3-26 | an accepted body has non-empty user id, form id and title, and a field array whose every label is non-empty |
| GoogleFormSchema.DecodeField | backend/src/controllers/google-form/googleForm.schema.ts:12-23 | a decoded field carries the object's label, kind, options, flag and location |
| GoogleFormSchema.DecodeFields | backend/src/controllers/google-form/googleForm.schema.ts:11-24 | every element is decoded, in order |
| GoogleFormSchema.DecodeBody | backend/src/controllers/google-form/googleForm.schema.ts:3-26 | decoding succeeds exactly on valid bodies; the result carries the ids, the form's title, its description exactly when the body has one, and the fields decoded from the body's field list, with its required texts non-empty |
| GoogleFormSchema.FieldRoundTrip | backend/src/controllers/google-form/googleForm.schema.ts:12-23 | an encoded field is valid exactly when its label is non-empty, and then decodes to itself |
| GoogleFormSchema.BodyRoundTrip | backend/src/controllers/google-form/googleForm.schema.ts:3-26 | an encoded body is valid exactly when its ids, title and labels are non-empty, and then decodes to itself |
| GoogleFormHelpers.DefaultBody | backend/src/controllers/google-form/googleForm.helpers.ts:5 | a missing or null body reads as the empty object; any other body as itself |
| GoogleFormHelpers.ParseCreateGoogleFormBody | backend/src/controllers/google-form/googleForm.helpers.ts:4-6 | a body is accepted exactly when present and valid, so a missing or null body is rejected |
| GoogleFormHelpers.IsTransientNetworkError | backend/src/controllers/google-form/googleForm.helpers.ts:12-16 | a message is transient exactly when one of the five alternatives occurs in it, ignoring case |
| GoogleFormHelpers.TransientIgnoresCase | backend/src/controllers/google-form/googleForm.helpers.ts:13 | upper-casing the message does not change the verdict |
| GoogleFormHelpers.TransientInContext | backend/src/controllers/google-form/googleForm.helpers.ts:13 | text around a transient message keeps it transient; the empty message is not transient |
| GoogleFormService.ApplyRequest | backend/src/services/googleForm.service.ts:105-110 | a delete is accepted exactly at an existing index and removes that item; a create is accepted exactly at an index up to the end with a valid question, and puts the item there; the other items keep their order |
| GoogleFormService.ApplyBatchAppend | backend/src/services/googleForm.service.ts:105-110 | a batch split in two runs the second part on the result of the first |
| GoogleFormService.QuestionAsWritten | backend/src/services/googleForm.service.ts:62-94 | the exported question keeps the field's required flag, and is one the Forms API accepts exactly when the field is not a radio or checkbox field |
| GoogleFormService.QuestionFor | backend/src/services/googleForm.service.ts:62-94 | text and paragraph fields get a text question; radio and checkbox fields get a choice question with the field's options; the required flag is kept; the question is accepted exactly when a choice field has options |
| GoogleFormService.QuestionRoundTrip | backend/src/services/googleForm.service.ts:62-94 | the field's kind can be read back from its question |
| GoogleFormService.ChoiceFieldsExportWithoutKind | backend/src/services/googleForm.service.ts:75-91 | as written, a radio or checkbox field gets neither a text nor a choice question; text and paragraph fields are exported as intended |
| GoogleFormService.Items | backend/src/services/googleForm.service.ts:57-101 | one item per field, titled by its label, in field order |
| GoogleFormService.CreateRequests | backend/src/services/googleForm.service.ts:57-101 | one create per field, at the field's position in the list |
| GoogleFormService.AscendingDeletes | backend/src/services/googleForm.service.ts:47-55 | one delete per item, at the item's original index |
| GoogleFormService.DescendingDeletes | backend/src/services/googleForm.service.ts:47-55 | one delete per item, from the last index down to 0 |
| GoogleFormService.CreatesFromEmpty | backend/src/services/googleForm.service.ts:57-103 | the creates turn an empty form into the fields' items, in order, when every question is valid, and are rejected otherwise |
| GoogleFormService.AscendingDeletesOutcome | backend/src/services/googleForm.service.ts:47-55 | ascending deletes over a shrinking list are rejected exactly when an index runs past its end |
| GoogleFormService.UpdateRequestsAsWritten | backend/src/services/googleForm.service.ts:41-103 | the request list as written: ascending deletes, then the creates |
| GoogleFormService.AsWrittenQuestionsValid | backend/src/services/googleForm.service.ts:62-94 | as written, every question is accepted exactly when no field is a radio or checkbox field |
| GoogleFormService.QuestionsForValid | backend/src/services/googleForm.service.ts:62-94 | with the intended kinds, every question is accepted exactly when every choice field has options |
| GoogleFormService.AsWrittenBatchFails | backend/src/services/googleForm.service.ts:41-110 | as written, the batch is rejected exactly when the Google form has two or more items or a field is a radio or checkbox field; otherwise it yields the fields' items |
| GoogleFormService.UpdateRequests | backend/src/services/googleForm.service.ts:41-110 | the batch succeeds exactly when every choice field has options, and then leaves exactly the fields' items, in field order |
| FormRetrieveParsers.ParseUserId | backend/src/controllers/form-retrieve/formRetrieve.parsers.ts:3-5 | the query's user id when it is a string, else `""` |
| FormRetrieveParsers.ParsedOr | backend/src/controllers/form-retrieve/formRetrieve.parsers.ts:12-13 | the parsed number unless it is NaN or zero, then the fallback |
| FormRetrieveParsers.PageNumber | backend/src/controllers/form-retrieve/formRetrieve.parsers.ts:12 | a positive parsed page is kept; anything else gives 1 |
| FormRetrieveParsers.LimitNumber | backend/src/controllers/form-retrieve/formRetrieve.parsers.ts:13 | a positive parsed limit is kept up to 50; a negative one gives 1; a missing, NaN or zero one gives 10 |
| FormRetrieveParsers.ParsePagination | backend/src/controllers/form-retrieve/formRetrieve.parsers.ts:7-20 | page at least 1, limit between 1 and 50, skip is (page - 1) times limit |
| FormRetrieveParsers.PaginationRoundTrip | backend/src/controllers/form-retrieve/formRetrieve.parsers.ts:7-20 | a valid page and limit, written in decimal, parse back unchanged |
| FormRetrieveParsers.PaginationDefaults | backend/src/controllers/form-retrieve/formRetrieve.parsers.ts:8-10 | absent parameters give page 1, limit 10, skip 0 |
| FormRetrieveParsers.ParseUserIdAndFormId | backend/src/controllers/form-retrieve/formRetrieve.parsers.ts:22-35 | succeeds exactly when both ids are non-empty; the form id is checked first, each with its own message |
| AuthParsers.ParseBearerToken | backend/src/controllers/auth/auth.parsers.ts:3-11 | none exactly for a missing or empty header; one leading `Bearer ` is removed, otherwise the header is kept |
| AuthParsers.BearerRoundTrip | backend/src/controllers/auth/auth.parsers.ts:3-11 | a token sent with the prefix comes back unchanged, and only one prefix is removed; a bare token is kept |
| AuthParsers.ParseOAuthCode | backend/src/controllers/auth/auth.parsers.ts:13-23 | the query code wins over the body code; none only when neither is a string |
| AuthStore.AuthStore.constructor | frontend/src/store/auth.store.ts:14-17 | the store starts signed out with no user |
| AuthStore.AuthStore.SetIsAuthenticated | frontend/src/store/auth.store.ts:16 | only the flag changes |
| AuthStore.AuthStore.SetUser | frontend/src/store/auth.store.ts:18 | only the user changes |
| AuthStore.AuthStore.Login | frontend/src/store/auth.store.ts:19 | user set and signed in |
| AuthStore.AuthStore.Logout | frontend/src/store/auth.store.ts:20 | back to the initial state |
| JsText.Trim | backend/src/controllers/form-edit/formEdit.streams.ts:98 | the result is a slice of the input with only whitespace removed, and has no whitespace at either end |
| JsText.ParseInt | backend/src/controllers/form-retrieve/formRetrieve.parsers.ts:12-13 | a blank input is NaN; a negative result needs a leading minus sign; an input starting with a digit gives a non-negative number |
| JsText.IntToString | backend/src/controllers/form-edit/formEdit.state.ts:43 | a non-empty decimal spelling that starts with `-` exactly for negative numbers, digits otherwise |
| JsText.ContainsIgnoringCase | backend/src/controllers/google-form/googleForm.helpers.ts:13 | true exactly when the pattern occurs at some offset, ignoring ASCII case |
| JsText.ParseIntOfIntToString | backend/src/controllers/form-retrieve/formRetrieve.parsers.ts:12-13 | `parseInt` reads back every integer that `String` writes |
| JsText.ParseIntOfDigitRun | backend/src/controllers/form-retrieve/formRetrieve.parsers.ts:12-13 | after any leading whitespace and one optional sign, `parseInt` reads the value of the run of digits, leading zeros included, and ignores the tail after it |

## Left out

- The agent itself is not modelled: model choice, prompts, step budget, temperature and `convertToModelMessages`. `AgentQuery` takes the events the agent delivers, and whether it then throws, as input.
- Express transport is not modelled: headers, status codes, and the handler and controller files. `res.write` is an append to `ResponseStream.lines`.
- Mongo is reduced to `FormStore.Store`, a map from id to form plus a reachability flag. Schema casting and defaults are left out. So is the mismatch between the document schema (which names the kind `type` and has no `id` or `location`) and the stored type, and so is concurrency between sessions.
- OAuth, JWT, tokens and the Google API client are not modelled. `createGoogleForm` and `forms.get` are left out; the items of the fetched form are an input, and an absent `items` list counts as empty.
- `batchUpdate` is modelled by `GoogleFormService.ApplyBatch`, which states how the Forms API treats a batch: requests apply in order, and one out-of-range index or one invalid question rejects the whole batch. A valid question is exactly one of a text and a choice question, and a choice question needs at least one option. The API's other checks are not modelled. The source does not await `batchUpdate`, so a rejected batch goes unnoticed by the caller; the model does not capture that.
- `FormBuilderUtils.FormInput` and `FormBuilderUtils.ClientForm` keep only title, description and fields. The `{...form}` spreads in `form.utils.ts` (lines 6, 78 and 94) also copy every other key of the client form, such as its ids and timestamps; those keys are not modelled.
- `JSON.stringify` is the parameter `stringify` of `AppendFormStateMessage`, and `Date.now()` is the parameter `now`.
- Numbers are unbounded integers. Fractions, NaN, infinities and the precision of `parseInt` on very long digit strings are left out.
- JSON has no `undefined`. A key present with the value `undefined` is treated like a missing key.
- FormBuilderUtils.AddField: the source replaces a non-array `fields` with `[]`. The model types `fields` as an array, so that case does not arise.
- FormBuilderUtils.DeleteField: an index that is a number but not an integer is not modelled.
- `update_field` and `move_field` results are never applied by any applier. They are written to the stream like other results and otherwise leave the draft unchanged; no semantics are invented for them.
- FormEditStreams.AgentQuery: the draft is a value. The source's draft shares its `fields` array with the request's form, so a `push` also changes the caller's form. The model does not capture that aliasing.
- AuthStore.AuthStore: the user record is a type parameter. The frontend user type is not part of this model.
- The route files, configuration, UI components and the older `form.controller.ts` are not modelled.

## Findings

| source | as written | input that shows it | evidently intended | confidence | as-written member | corrected member |
|---|---|---|---|---|---|---|
| backend/src/controllers/form-edit/formEdit.streams.ts:68-72 | the delete filter compares each field with `toolResult.fieldId`. The field-side property name is missing, so the file does not parse. Read as `field.id`, every field is kept, because a `delete_field` result has `id` and no `fieldId`. | a draft holding a field `a`, and a `delete_field` result with id `a` | keep the fields whose `id` differs from the result's `id` | high, not executed | FormEditStreams.DeleteAsWrittenIsNoOp | FormEditStreams.DeleteRemovesField |
| backend/src/services/googleForm.service.ts:47-55 | item `i` is deleted at index `i`, in ascending order, inside one batch whose requests apply in sequence | a Google form that already has two items: the second delete targets index 1 of a one-item form | delete every existing item (last index first) | medium, not executed; it depends on the Forms API applying a batch's requests in sequence. no current caller reaches it, because `createGoogleForm` returns nothing, so the caller fails on its result first, and a just-created form has no items | GoogleFormService.AsWrittenBatchFails | GoogleFormService.UpdateRequests |
| backend/src/services/googleForm.service.ts:75-91 | choice questions are built only for the kinds `single_choice` and `multiple_choice`, but the export body's fields are `text`, `para`, `radio` or `checkbox` (googleForm.schema.ts:16) | any `radio` field: it is exported with neither a text nor a choice question, so the Forms API rejects the whole batch | radio becomes a RADIO choice question and checkbox a CHECKBOX one, each with the field's options | medium, not executed | GoogleFormService.ChoiceFieldsExportWithoutKind | GoogleFormService.QuestionRoundTrip |
