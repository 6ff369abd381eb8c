/** The idempotency keys handed to Actions and Compensates. */
module OperationKeys {

  const COMPENSATE := "/compensate"

  function OperationID(executionID: string, stepName: string): string {
    executionID + "/" + stepName
  }

  function CompensationOperationID(executionID: string, stepName: string): string {
    executionID + "/" + stepName + COMPENSATE
  }

  datatype Kind = Action | Compensation

  /** One logical operation: the Action or the Compensate of one step in one execution. */
  datatype Operation = Operation(executionID: string, step: nat, kind: Kind)

  function Key(names: seq<string>, op: Operation): string
    requires op.step < |names|
  {
    if op.kind.Action? then OperationID(op.executionID, names[op.step])
    else CompensationOperationID(op.executionID, names[op.step])
  }

  predicate SlashFree(s: string) {
    '/' !in s
  }

  predicate Distinct(names: seq<string>) {
    forall i, j :: 0 <= i < j < |names| ==> names[i] != names[j]
  }

  /** Some step is named like another step's compensation. */
  predicate Clashes(names: seq<string>) {
    exists i, j :: 0 <= i < |names| && 0 <= j < |names| && names[i] == names[j] + "/compensate"
  }

  predicate IsOperation(names: seq<string>, op: Operation) {
    op.step < |names| && SlashFree(op.executionID)
  }

  /** No two operations of any executions share a key. */
  ghost predicate KeysAreUnique(names: seq<string>) {
    forall a, b :: IsOperation(names, a) && IsOperation(names, b) && a != b ==> Key(names, a) != Key(names, b)
  }

  function Tail(name: string, kind: Kind): string {
    if kind.Action? then name else name + COMPENSATE
  }

  lemma KeyParts(names: seq<string>, op: Operation)
    requires op.step < |names|
    ensures Key(names, op) == op.executionID + "/" + Tail(names[op.step], op.kind)
  {
    var e, n := op.executionID, names[op.step];
    assert e + "/" + n + COMPENSATE == e + "/" + (n + COMPENSATE);
  }

  /** A slash-free prefix can be read off again. */
  lemma PrefixIsReadable(a: string, s: string, b: string, t: string)
    requires SlashFree(a) && SlashFree(b) && a + "/" + s == b + "/" + t
    ensures a == b && s == t
  {
    var x, y := a + "/" + s, b + "/" + t;
    assert x[|a|] == '/' && y[|b|] == '/';
    assert forall k :: 0 <= k < |a| ==> x[k] == a[k] != '/';
    assert forall k :: 0 <= k < |b| ==> y[k] == b[k] != '/';
    assert a == x[..|a|] == y[..|b|] == b;
    assert s == x[|a| + 1..] == y[|b| + 1..] == t;
  }

  lemma SuffixIsReadable(a: string, b: string)
    requires a + COMPENSATE == b + COMPENSATE
    ensures a == b
  {
    assert a == (a + COMPENSATE)[..|a|] == (b + COMPENSATE)[..|b|] == b;
  }

  /**
   * For slash-free execution IDs and distinct step names, keys identify operations exactly
   * when no step is named like another step followed by "/compensate".
   */
  lemma KeysIdentifyOperationsIff(names: seq<string>)
    requires Distinct(names)
    ensures KeysAreUnique(names) <==> !Clashes(names)
  {
    if Clashes(names) {
      var i, j :| 0 <= i < |names| && 0 <= j < |names| && names[i] == names[j] + "/compensate";
      var a, b := Operation("", i, Action), Operation("", j, Compensation);
      KeyParts(names, a);
      KeyParts(names, b);
      assert IsOperation(names, a) && IsOperation(names, b) && a != b && Key(names, a) == Key(names, b);
    } else {
      forall a, b | IsOperation(names, a) && IsOperation(names, b) && Key(names, a) == Key(names, b)
        ensures a == b
      {
        KeyParts(names, a);
        KeyParts(names, b);
        PrefixIsReadable(a.executionID, Tail(names[a.step], a.kind), b.executionID, Tail(names[b.step], b.kind));
        if a.kind.Compensation? && b.kind.Compensation? {
          SuffixIsReadable(names[a.step], names[b.step]);
        }
        assert names[a.step] == names[b.step];
      }
    }
  }
}
