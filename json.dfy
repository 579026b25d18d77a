/** JSON values as the client sends and receives them (request payloads,
    response bodies, `to_dict` output). */
module JsonData {

  datatype Json =
    | JNull
    | JBool(b: bool)
    | JInt(i: int)
    | JFloat(r: real)
    | JStr(s: string)
    | JArray(items: seq<Json>)
    | JObject(fields: map<string, Json>)

  type Object = map<string, Json>
}

/** What a pydantic request model does at construction: either the
    validated record or the list of fields that failed, in declaration
    order. */
module Schema {

  datatype Checked<+T> = Valid(value: T) | Invalid(fields: seq<string>)

  /** One field and whether its declared constraints hold. */
  datatype Check = Check(field: string, ok: bool)

  /** The fields whose constraints fail, in the order they are checked. */
  function Failing(checks: seq<Check>): (r: seq<string>)
    ensures |r| <= |checks|
  {
    if checks == [] then []
    else (if checks[0].ok then [] else [checks[0].field]) + Failing(checks[1..])
  }

  /** A field is reported exactly when one of its checks fails. */
  lemma {:induction false} FailingListsFailures(checks: seq<Check>, f: string)
    ensures f in Failing(checks) <==> exists i :: 0 <= i < |checks| && checks[i].field == f && !checks[i].ok
  {
    if checks != [] {
      FailingListsFailures(checks[1..], f);
      if f in Failing(checks[1..]) {
        var i :| 0 <= i < |checks[1..]| && checks[1..][i].field == f && !checks[1..][i].ok;
        assert checks[i + 1].field == f && !checks[i + 1].ok;
      }
      forall i | 1 <= i < |checks| && checks[i].field == f && !checks[i].ok
        ensures f in Failing(checks[1..])
      {
        assert checks[1..][i - 1] == checks[i];
      }
    }
  }

  /** Nothing is reported exactly when every check holds. */
  lemma {:induction false} FailingEmptyIff(checks: seq<Check>)
    ensures Failing(checks) == [] <==> forall i :: 0 <= i < |checks| ==> checks[i].ok
  {
    if checks != [] {
      FailingEmptyIff(checks[1..]);
      assert forall i :: 1 <= i < |checks| ==> checks[i] == checks[1..][i - 1];
    }
  }

  /** Build the record when every check holds, else report the failures. */
  function Construct<T>(checks: seq<Check>, record: T): (r: Checked<T>)
    ensures r.Valid? <==> forall i :: 0 <= i < |checks| ==> checks[i].ok
    ensures r.Valid? ==> r.value == record
    ensures r.Invalid? ==> r.fields != [] && forall f :: f in r.fields ==> exists i :: 0 <= i < |checks| && checks[i].field == f && !checks[i].ok
    ensures r.Invalid? ==> forall i :: 0 <= i < |checks| && !checks[i].ok ==> checks[i].field in r.fields
  {
    FailingEmptyIff(checks);
    var failing := Failing(checks);
    forall f | f in failing
      ensures exists i :: 0 <= i < |checks| && checks[i].field == f && !checks[i].ok
    {
      FailingListsFailures(checks, f);
    }
    forall i | 0 <= i < |checks| && !checks[i].ok
      ensures checks[i].field in failing
    {
      FailingListsFailures(checks, checks[i].field);
    }
    if failing == [] then Valid(record) else Invalid(failing)
  }

  /** pydantic `min_length` / `max_length` on a string. */
  predicate LengthWithin(s: string, lo: nat, hi: nat) {
    lo <= |s| <= hi
  }
}
