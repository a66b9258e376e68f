/** The document store the form-editing session talks to, reduced to a map
    from form id to form. A store that is not reachable makes every call
    throw; the store enforces unique ids on insert. */
module FormStore {
  import opened Wrappers
  import opened FormTypes

  datatype StoreError = Unreachable | DuplicateKey(id: string)

  /** The map after `findByIdAndUpdate(id, doc, {upsert})`: a stored form is
      replaced, a missing one is inserted only when `upsert` is set. */
  function Upserted(forms: map<string, Form>, id: string, doc: Form, upsert: bool): (r: map<string, Form>)
    ensures r.Keys == if upsert then forms.Keys + {id} else forms.Keys
    ensures id in r ==> r[id] == doc || (!upsert && id !in forms)
    ensures id in forms || upsert ==> id in r && r[id] == doc
    ensures forall k :: k in forms && k != id ==> r[k] == forms[k]
  {
    if id in forms || upsert then forms[id := doc] else forms
  }

  class Store {
    var forms: map<string, Form>
    var reachable: bool

    constructor (forms: map<string, Form>, reachable: bool)
      ensures this.forms == forms && this.reachable == reachable
    {
      this.forms := forms;
      this.reachable := reachable;
    }

    /** `findById`: the stored form, `None` when there is none. */
    method FindById(id: string) returns (r: Result<Option<Form>, StoreError>)
      ensures !reachable ==> r == Failure(Unreachable)
      ensures reachable ==> r == Success(if id in forms then Some(forms[id]) else None)
    {
      if !reachable {
        return Failure(Unreachable);
      }
      r := Success(if id in forms then Some(forms[id]) else None);
    }

    /** `save` of a new document: fails when the id is taken. */
    method Insert(doc: Form) returns (r: Result<Form, StoreError>)
      modifies this
      ensures reachable == old(reachable)
      ensures !reachable ==> r == Failure(Unreachable) && forms == old(forms)
      ensures reachable && doc.id in old(forms) ==> r == Failure(DuplicateKey(doc.id)) && forms == old(forms)
      ensures reachable && doc.id !in old(forms) ==> r == Success(doc) && forms == old(forms)[doc.id := doc]
    {
      if !reachable {
        return Failure(Unreachable);
      }
      if doc.id in forms {
        return Failure(DuplicateKey(doc.id));
      }
      forms := forms[doc.id := doc];
      r := Success(doc);
    }

    /** `findByIdAndUpdate(id, doc, {new: true, upsert})`: the stored form
      afterwards, `None` when there is none. */
    method FindByIdAndUpdate(id: string, doc: Form, upsert: bool) returns (r: Result<Option<Form>, StoreError>)
      modifies this
      ensures reachable == old(reachable)
      ensures !reachable ==> r == Failure(Unreachable) && forms == old(forms)
      ensures reachable ==> (forms == Upserted(old(forms), id, doc, upsert)
                             && r == Success(if id in forms then Some(doc) else None))
    {
      if !reachable {
        return Failure(Unreachable);
      }
      forms := Upserted(forms, id, doc, upsert);
      r := Success(if id in forms then Some(doc) else None);
    }
  }
}
