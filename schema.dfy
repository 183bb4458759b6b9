/** The few schema rules the onboarding forms use, as the validation library
    applies them: each field is checked on its own and every failing field
    contributes one issue, reported in the order the fields are declared. */
module Schema {
  import opened Common

  /** One validation failure: the dotted path of the field and the message
      the form shows under it (`None` when the schema leaves the message to
      the library's built-in text). */
  datatype Issue = Issue(path: string, message: Option<string>)

  /** The outcome of parsing a record against a schema. */
  datatype Result<T> = Ok(value: T) | Err(issues: seq<Issue>)

  /** The issues a single rule contributes: none if `ok`, else one. */
  function Check(ok: bool, path: string, message: Option<string>): (r: seq<Issue>)
    ensures r == [] <==> ok
    ensures !ok ==> r == [Issue(path, message)]
    ensures |r| == Fails(ok)
  {
    if ok then [] else [Issue(path, message)]
  }

  /** One issue for a failing rule, none for a passing one. */
  function Fails(ok: bool): nat
  {
    if ok then 0 else 1
  }

  /** A field an object schema checks: its dotted path and the message its
      rule reports (`None` for the library's built-in text). */
  datatype Field = Field(path: string, message: Option<string>)

  /** How many of the rules `oks[from..]` fail. */
  function FailuresFrom(oks: seq<bool>, from: nat): nat
    requires from <= |oks|
    decreases |oks| - from
  {
    if from == |oks| then 0 else Fails(oks[from]) + FailuresFrom(oks, from + 1)
  }

  /** Counting from `from` is counting the tail from `from - 1`. */
  lemma {:induction false} FailuresShift(oks: seq<bool>, from: nat)
    requires 1 <= from <= |oks|
    ensures FailuresFrom(oks, from) == FailuresFrom(oks[1..], from - 1)
    decreases |oks| - from
  {
    if from < |oks| {
      FailuresShift(oks, from + 1);
    }
  }

  /** An object schema applied to a record: `oks[k]` says whether the rule of
      `fields[k]` holds for the record, and the issues are those of the
      failing fields in declaration order. */
  function Collect(oks: seq<bool>, fields: seq<Field>): (r: seq<Issue>)
    requires |oks| == |fields|
    ensures |r| == FailuresFrom(oks, 0)
  {
    if fields == [] then []
    else
      FailuresShift(oks, 1);
      Check(oks[0], fields[0].path, fields[0].message) + Collect(oks[1..], fields[1..])
  }

  /** No two fields share a path. */
  predicate DistinctPaths(fields: seq<Field>)
  {
    fields == [] ||
    ((forall k :: 1 <= k < |fields| ==> fields[k].path != fields[0].path) && DistinctPaths(fields[1..]))
  }

  /** When paths are distinct, a field's issue is reported exactly when its
      rule fails. */
  lemma {:induction false} CollectReports(oks: seq<bool>, fields: seq<Field>, j: nat)
    requires |oks| == |fields| && j < |fields|
    requires DistinctPaths(fields)
    ensures Issue(fields[j].path, fields[j].message) in Collect(oks, fields) <==> !oks[j]
  {
    if j == 0 {
      CollectAvoids(oks[1..], fields[1..], fields[0].path);
    } else {
      CollectReports(oks[1..], fields[1..], j - 1);
    }
  }

  /** Fields without a given path report no issue under it. */
  lemma {:induction false} CollectAvoids(oks: seq<bool>, fields: seq<Field>, path: string)
    requires |oks| == |fields|
    requires forall k :: 0 <= k < |fields| ==> fields[k].path != path
    ensures forall x :: x in Collect(oks, fields) ==> x.path != path
  {
    if fields != [] {
      CollectAvoids(oks[1..], fields[1..], path);
    }
  }

  /** The paths of the failing fields, in declaration order. */
  function Failed(oks: seq<bool>, fields: seq<Field>): seq<string>
    requires |oks| == |fields|
  {
    if fields == [] then []
    else (if oks[0] then [] else [fields[0].path]) + Failed(oks[1..], fields[1..])
  }

  /** The reported paths are those of the failing fields, in order. */
  lemma {:induction false} CollectPaths(oks: seq<bool>, fields: seq<Field>)
    requires |oks| == |fields|
    ensures Paths(Collect(oks, fields)) == Failed(oks, fields)
  {
    if fields != [] {
      PathsConcat(Check(oks[0], fields[0].path, fields[0].message), Collect(oks[1..], fields[1..]));
      CollectPaths(oks[1..], fields[1..]);
    }
  }

  /** The paths of a list of issues, in order. */
  function Paths(issues: seq<Issue>): (r: seq<string>)
    ensures |r| == |issues|
    ensures forall i :: 0 <= i < |issues| ==> r[i] == issues[i].path
  {
    if issues == [] then [] else [issues[0].path] + Paths(issues[1..])
  }

  /** Paths of concatenated issue lists. */
  lemma {:induction false} PathsConcat(a: seq<Issue>, b: seq<Issue>)
    ensures Paths(a + b) == Paths(a) + Paths(b)
  {
    if a == [] {
      assert a + b == b;
    } else {
      assert (a + b)[1..] == a[1..] + b;
      PathsConcat(a[1..], b);
    }
  }

  /** A schema's result: the parsed value when no rule failed, else every
      issue. */
  function Outcome<T>(issues: seq<Issue>, value: T): (r: Result<T>)
    ensures r.Ok? <==> issues == []
    ensures r.Ok? ==> r.value == value
    ensures r.Err? ==> r.issues == issues
  {
    if issues == [] then Ok(value) else Err(issues)
  }
}
