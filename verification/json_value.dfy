/** An untyped JSON value, as it arrives in a request body or as a tool's raw
    output before any schema has looked at it. Numbers are integers here. */
module JsonValue {

  datatype Json =
    | JNull
    | JBool(b: bool)
    | JNum(n: int)
    | JStr(s: string)
    | JArr(items: seq<Json>)
    | JObj(members: map<string, Json>)

  /** True iff `j` is an object carrying `key` whose value is a string. */
  predicate HasString(j: Json, key: string) {
    j.JObj? && key in j.members && j.members[key].JStr?
  }

  /** True iff `j` is an object carrying `key` whose value is a non-empty string. */
  predicate HasNonEmptyString(j: Json, key: string) {
    HasString(j, key) && j.members[key].s != ""
  }

  /** True iff `j` is an object carrying `key` whose value is a boolean. */
  predicate HasBool(j: Json, key: string) {
    j.JObj? && key in j.members && j.members[key].JBool?
  }

  /** True iff `j` is an object carrying `key` whose value is a number. */
  predicate HasNumber(j: Json, key: string) {
    j.JObj? && key in j.members && j.members[key].JNum?
  }

  /** True iff `key`, when `j` carries it, holds an array of strings
      (`z.array(z.string()).optional()`). */
  predicate OptionalStrings(j: Json, key: string)
    requires j.JObj?
  {
    key in j.members ==> j.members[key].JArr? && AllStrings(j.members[key].items)
  }

  /** True iff every element of an array is a string. */
  predicate AllStrings(items: seq<Json>) {
    forall i :: 0 <= i < |items| ==> items[i].JStr?
  }

  /** The strings of an array that holds only strings, in order. */
  function Strings(items: seq<Json>): (r: seq<string>)
    requires AllStrings(items)
    ensures |r| == |items|
    ensures forall i :: 0 <= i < |items| ==> items[i] == JStr(r[i])
  {
    if items == [] then [] else [items[0].s] + Strings(items[1..])
  }

  /** The JSON array of a list of strings. */
  function StringArray(xs: seq<string>): (r: seq<Json>)
    ensures |r| == |xs| && AllStrings(r)
    ensures forall i :: 0 <= i < |xs| ==> r[i] == JStr(xs[i])
  {
    seq(|xs|, i requires 0 <= i < |xs| => JStr(xs[i]))
  }

  lemma StringsOfStringArray(xs: seq<string>)
    ensures Strings(StringArray(xs)) == xs
  {
    var r := Strings(StringArray(xs));
    assert |r| == |xs|;
    forall i | 0 <= i < |xs| ensures r[i] == xs[i] {
      assert StringArray(xs)[i] == JStr(r[i]);
    }
  }
}
