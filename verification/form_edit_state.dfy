/** Session setup: choose the form an editing session starts from, and put
    the current form in front of the agent as a system message. */
module FormEditState {
  import opened Wrappers
  import opened FormTypes
  import opened FormStore
  import JsText

  const DefaultTitle: string := "Untitled Form"
  const FormStateLabel: string := "This is User Curr Form State"

  datatype Role = System | User | Assistant
  datatype Part = TextPart(text: string)
  datatype Message = Message(id: string, role: Role, parts: seq<Part>)

  /** The document a `create` request stores. */
  function NewForm(formId: string, userId: string, now: int): (f: Form)
    ensures f.id == formId && f.userId == userId && f.title == DefaultTitle
    ensures f.description == Some("") && f.fields == []
  {
    Form(formId, DefaultTitle, Some(""), [], userId, None, None, false, now, now)
  }

  /** `resolveFormState`: `create` stores and returns a fresh form, `edit`
      returns the stored form or `None` (null), any other request kind the
      fallback unchanged. A failing store call is a thrown error. */
  method ResolveFormState(store: Store, request: string, formId: string, userId: string,
                          fallbackForm: Form, now: int) returns (r: Result<Option<Form>, StoreError>)
    modifies store
    ensures store.reachable == old(store.reachable)
    ensures request == "create" ==>
      if old(store.reachable) && formId !in old(store.forms) then
        r == Success(Some(NewForm(formId, userId, now)))
        && store.forms == old(store.forms)[formId := NewForm(formId, userId, now)]
      else r.Failure? && store.forms == old(store.forms)
    ensures request == "edit" ==> (store.forms == old(store.forms)
      && r == if !old(store.reachable) then Failure(Unreachable)
              else if formId in store.forms then Success(Some(store.forms[formId]))
              else Success(None))
    ensures request != "create" && request != "edit" ==>
      r == Success(Some(fallbackForm)) && store.forms == old(store.forms)
  {
    var currentForm := fallbackForm;
    if request == "create" {
      var newForm := NewForm(formId, userId, now);
      var saved := store.Insert(newForm);
      if saved.Failure? {
        return Failure(saved.error);
      }
      currentForm := newForm;
    } else if request == "edit" {
      var existing := store.FindById(formId);
      if existing.Failure? {
        return Failure(existing.error);
      }
      if existing.value.None? {
        return Success(None);
      }
      currentForm := existing.value.value;
    }
    r := Success(Some(currentForm));
  }

  /** `appendFormStateMessage`: the conversation with one system message
      added at the end, holding the fixed label and then the serialised
      form; the message id is the clock reading in decimal. */
  function AppendFormStateMessage(messages: seq<Message>, currentForm: Form, now: int,
                                  stringify: Form -> string): (r: seq<Message>)
    ensures |r| == |messages| + 1 && r[..|messages|] == messages
    ensures r[|messages|].role == System && JsText.ParseInt(r[|messages|].id) == Some(now)
    ensures r[|messages|].parts == [TextPart(FormStateLabel), TextPart(stringify(currentForm))]
  {
    JsText.ParseIntOfIntToString(now);
    messages + [Message(JsText.IntToString(now), System,
      [TextPart(FormStateLabel), TextPart(stringify(currentForm))])]
  }
}
