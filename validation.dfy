/** The issues a schema check reports: the field (first path segment) and the message. */
module Validation {

  /** One validation issue; `path` is the issue's path, whose first segment names the field. */
  datatype Issue = Issue(path: seq<string>, message: string)

  /** `z.string().min(n, message)` on field `field`. */
  function MinLength(field: string, value: string, n: nat, message: string): (r: seq<Issue>)
    ensures r == [] <==> |value| >= n
    ensures r != [] ==> r == [Issue([field], message)]
  {
    if |value| < n then [Issue([field], message)] else []
  }

  /** `z.string().max(n, message)` on field `field`. */
  function MaxLength(field: string, value: string, n: nat, message: string): (r: seq<Issue>)
    ensures r == [] <==> |value| <= n
    ensures r != [] ==> r == [Issue([field], message)]
  {
    if |value| > n then [Issue([field], message)] else []
  }

  /** A check given by a predicate, such as `z.string().email(message)`. */
  function Check(field: string, ok: bool, message: string): (r: seq<Issue>)
    ensures r == [] <==> ok
    ensures r != [] ==> r == [Issue([field], message)]
  {
    if ok then [] else [Issue([field], message)]
  }

  /** Some issue is reported for `field`. */
  ghost predicate HasIssueFor(issues: seq<Issue>, field: string) {
    exists i :: 0 <= i < |issues| && |issues[i].path| > 0 && issues[i].path[0] == field
  }

  /** Issues of a concatenation are the issues of either part. */
  lemma HasIssueForAppend(a: seq<Issue>, b: seq<Issue>, field: string)
    ensures HasIssueFor(a + b, field) <==> HasIssueFor(a, field) || HasIssueFor(b, field)
  {
    if HasIssueFor(a + b, field) {
      var i :| 0 <= i < |a + b| && |(a + b)[i].path| > 0 && (a + b)[i].path[0] == field;
      if i >= |a| {
        assert b[i - |a|] == (a + b)[i];
      }
    }
    if HasIssueFor(a, field) {
      var i :| 0 <= i < |a| && |a[i].path| > 0 && a[i].path[0] == field;
      assert (a + b)[i] == a[i];
    }
    if HasIssueFor(b, field) {
      var i :| 0 <= i < |b| && |b[i].path| > 0 && b[i].path[0] == field;
      assert (a + b)[|a| + i] == b[i];
    }
  }

  /** A single-field check reports an issue for its field exactly when it fails. */
  lemma HasIssueForSingle(r: seq<Issue>, field: string, message: string, other: string)
    requires r == [] || r == [Issue([field], message)]
    ensures HasIssueFor(r, field) <==> r != []
    ensures other != field ==> !HasIssueFor(r, other)
  {
    if r != [] {
      assert r[0].path[0] == field;
      if other != field {
        forall i | 0 <= i < |r| ensures !(|r[i].path| > 0 && r[i].path[0] == other) {
          assert r[i] == Issue([field], message);
        }
      }
    }
  }
}
