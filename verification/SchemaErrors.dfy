/**
 What the validator complains about: its errors are exactly the faults of the value, each under
 the path that leads to it.
 */
module SchemaErrors {
  import opened Common
  import opened Decimal
  import opened Json
  import opened JsonSchema
  import opened SchemaKit

  /** One step into a value. */
  datatype Step = Key(name: string) | Index(i: nat)

  /** How a place is written: keys with dots between them, indices in brackets. */
  function Where(path: string, steps: seq<Step>): string
    decreases |steps|
  {
    if steps == [] then path
    else
      match steps[0]
      case Key(name) => Where(if path == "" then name else path + "." + name, steps[1..])
      case Index(i) => Where(path + "[" + ToDecimal(i) + "]", steps[1..])
  }

  /** A value of another type stands here. */
  predicate Mistyped(right: bool, what: string, v: Json, steps: seq<Step>, problem: Problem) {
    !right && steps == [] && problem == Expected(what, TypeOf(v))
  }

  /** The field is not there, or all that is there is an inherited function. */
  predicate FieldFault(f: Field, steps: seq<Step>, problem: Problem) {
    && steps == []
    && if f.name in INHERITED then problem == RejectFunction(f.spec) else !f.spec.Optional? && problem == Missing
  }

  /** The value has this problem at the place the steps lead to. */
  ghost predicate Fault(s: Spec, v: Json, steps: seq<Step>, problem: Problem)
    decreases s
  {
    match s
    case Str => Mistyped(v.JStr?, "string", v, steps, problem)
    case Num => Mistyped(v.JNum?, "number", v, steps, problem)
    case Bool => Mistyped(v.JBool?, "boolean", v, steps, problem)
    case EnumOf(values) => !(v.JStr? && v.s in values) && steps == [] && problem == NotOneOf(values)
    case Nullable(inner) => !v.JNull? && Fault(inner, v, steps, problem)
    case Optional(inner) => Fault(inner, v, steps, problem)
    case Arr(item) =>
      if !v.JArr? then Mistyped(false, "array", v, steps, problem)
      else steps != [] && steps[0].Index? && steps[0].i < |v.items| && Fault(item, v.items[steps[0].i], steps[1..], problem)
    case Obj(shape) =>
      if !v.JObj? then Mistyped(false, "object", v, steps, problem)
      else steps != [] && steps[0].Key? && exists n | 0 <= n < |shape| :: FaultIn(shape[n], v.fields, steps, problem)
  }

  ghost predicate FaultIn(f: Field, input: map<string, Json>, steps: seq<Step>, problem: Problem)
    requires steps != [] && steps[0].Key?
    decreases f
  {
    && f.name == steps[0].name
    && if f.name in input then Fault(f.spec, input[f.name], steps[1..], problem) else FieldFault(f, steps[1..], problem)
  }

  ghost predicate FaultAt(s: Spec, v: Json, path: string, e: Error) {
    exists steps: seq<Step> :: Fault(s, v, steps, e.problem) && e.path == Where(path, steps)
  }

  ghost predicate Complains(r: Validated, e: Error) { r.Err? && e in r.errors }

  /** The same complaint about a function. */
  function AboutFunction(problem: Problem): Problem {
    match problem
    case Expected(what, _) => Expected(what, "function")
    case _ => problem
  }

  /** An inherited function is refused as any other value is that is wrong as a whole. */
  lemma {:induction false} FunctionRefused(s: Spec, v: Json, problem: Problem)
    requires Fault(s, v, [], problem)
    ensures RejectFunction(s) == AboutFunction(problem)
  {
    match s
    case Nullable(inner) => FunctionRefused(inner, v, problem);
    case Optional(inner) => FunctionRefused(inner, v, problem);
    case _ =>
  }

  // ─── Collected errors ───────────────────────────────────────────────────────

  lemma {:induction false} Collected(results: seq<Validated>, e: Error)
    ensures e in Collect(results).1 <==> exists i | 0 <= i < |results| :: Complains(results[i], e)
  {
    if results != [] {
      var n := |results| - 1;
      Collected(results[..n], e);
      if i :| 0 <= i < |results| && Complains(results[i], e) {
        if i < n { assert results[..n][i] == results[i]; }
      }
      if i :| 0 <= i < n && Complains(results[..n][i], e) { assert results[i] == results[..n][i]; }
    }
  }

  ghost predicate FieldComplains(f: Field, input: map<string, Json>, path: string, e: Error) {
    var r := ValidateField(f, input, path);
    r.Complain? && e in r.errors
  }

  lemma {:induction false} CollectedFields(s: Spec, input: map<string, Json>, path: string, n: nat, e: Error)
    requires s.Obj? && n <= |s.shape|
    ensures e in ValidateFields(s, input, path, n).1 <==> exists i | 0 <= i < n :: FieldComplains(s.shape[i], input, path, e)
  {
    if n > 0 {
      CollectedFields(s, input, path, n - 1, e);
      assert FieldComplains(s.shape[n - 1], input, path, e)
             <==> ValidateField(s.shape[n - 1], input, path).Complain? && e in ValidateField(s.shape[n - 1], input, path).errors;
    }
  }

  // ─── Errors are faults ──────────────────────────────────────────────────────

  /** A value that is wrong as a whole has one fault, where it stands. */
  lemma WholeFault(s: Spec, v: Json, path: string, e: Error)
    requires s.Str? || s.Num? || s.Bool? || s.EnumOf? || (s.Arr? && !v.JArr?) || (s.Obj? && !v.JObj?)
    ensures Complains(Validate(s, v, path), e) <==> FaultAt(s, v, path, e)
  {
    assert Where(path, []) == path;
    assert Complains(Validate(s, v, path), e) <==> Fault(s, v, [], e.problem) && e.path == path;
  }

  lemma SameFaults(s: Spec, inner: Spec, v: Json, path: string, e: Error)
    requires s == Optional(inner) || (s == Nullable(inner) && !v.JNull?)
    ensures FaultAt(s, v, path, e) <==> FaultAt(inner, v, path, e)
  {
    if steps: seq<Step> :| Fault(s, v, steps, e.problem) && e.path == Where(path, steps) { assert Fault(inner, v, steps, e.problem); }
    if steps: seq<Step> :| Fault(inner, v, steps, e.problem) && e.path == Where(path, steps) { assert Fault(s, v, steps, e.problem); }
  }

  lemma StepInto(path: string, step: Step, rest: seq<Step>)
    ensures Where(path, [step] + rest) == Where(Where(path, [step]), rest)
  {
    assert ([step] + rest)[1..] == rest && [step][1..] == [];
  }

  /** A fault of an item is a fault of its array, one step further. */
  lemma FaultOfItem(item: Spec, items: seq<Json>, i: nat, path: string, e: Error)
    requires i < |items| && FaultAt(item, items[i], ItemPath(path, i), e)
    ensures FaultAt(Arr(item), JArr(items), path, e)
  {
    var steps: seq<Step> :| Fault(item, items[i], steps, e.problem) && e.path == Where(ItemPath(path, i), steps);
    var further := [Index(i)] + steps;
    StepInto(path, Index(i), steps);
    assert [Index(i)][1..] == [] && further[1..] == steps;
    assert Fault(Arr(item), JArr(items), further, e.problem);
  }

  lemma FaultInItem(item: Spec, items: seq<Json>, path: string, e: Error) returns (i: nat)
    requires FaultAt(Arr(item), JArr(items), path, e)
    ensures i < |items| && FaultAt(item, items[i], ItemPath(path, i), e)
  {
    var steps: seq<Step> :| Fault(Arr(item), JArr(items), steps, e.problem) && e.path == Where(path, steps);
    i := steps[0].i;
    assert Fault(item, items[i], steps[1..], e.problem);
    assert Where(path, steps) == Where(ItemPath(path, i), steps[1..]);
  }

  lemma ItemFaults(item: Spec, items: seq<Json>, path: string, e: Error)
    requires forall i | 0 <= i < |items| ::
      Complains(Validate(item, items[i], ItemPath(path, i)), e) <==> FaultAt(item, items[i], ItemPath(path, i), e)
    ensures Complains(Validate(Arr(item), JArr(items), path), e) <==> FaultAt(Arr(item), JArr(items), path, e)
  {
    var results := ItemResults(item, items, path);
    Collected(results, e);
    if i :| 0 <= i < |results| && Complains(results[i], e) { FaultOfItem(item, items, i, path, e); }
    if FaultAt(Arr(item), JArr(items), path, e) {
      var i := FaultInItem(item, items, path, e);
      assert Complains(results[i], e);
    }
  }

  /** The field has this fault, at the end of a way that starts with its name. */
  ghost predicate FieldFaultAt(f: Field, input: map<string, Json>, path: string, e: Error) {
    exists steps: seq<Step> :: steps != [] && steps[0].Key? && FaultIn(f, input, steps, e.problem) && e.path == Where(path, steps)
  }

  lemma FieldErrors(f: Field, input: map<string, Json>, path: string, e: Error)
    requires f.name in input ==>
               (Complains(Validate(f.spec, input[f.name], At(path, f.name)), e) <==> FaultAt(f.spec, input[f.name], At(path, f.name), e))
    ensures FieldComplains(f, input, path, e) <==> FieldFaultAt(f, input, path, e)
  {
    var here := [Key(f.name)];
    assert here[1..] == [] && Where(path, here) == At(path, f.name);
    if FieldComplains(f, input, path, e) {
      if f.name in input {
        var steps :| Fault(f.spec, input[f.name], steps, e.problem) && e.path == Where(At(path, f.name), steps);
        StepInto(path, Key(f.name), steps);
        assert (here + steps)[1..] == steps;
        assert FaultIn(f, input, here + steps, e.problem);
      } else {
        assert FaultIn(f, input, here, e.problem);
      }
    }
    if steps: seq<Step> :| steps != [] && steps[0].Key? && FaultIn(f, input, steps, e.problem) && e.path == Where(path, steps) {
      assert e.path == Where(At(path, f.name), steps[1..]);
      if f.name in input { assert FaultAt(f.spec, input[f.name], At(path, f.name), e); }
    }
  }

  lemma ObjectFaults(s: Spec, v: Json, path: string, e: Error)
    requires s.Obj? && v.JObj?
    requires forall n | 0 <= n < |s.shape| ::
      FieldComplains(s.shape[n], v.fields, path, e) <==> FieldFaultAt(s.shape[n], v.fields, path, e)
    ensures Complains(Validate(s, v, path), e) <==> FaultAt(s, v, path, e)
  {
    CollectedFields(s, v.fields, path, |s.shape|, e);
    if n :| 0 <= n < |s.shape| && FieldComplains(s.shape[n], v.fields, path, e) {
      var steps: seq<Step> :| steps != [] && steps[0].Key? && FaultIn(s.shape[n], v.fields, steps, e.problem) && e.path == Where(path, steps);
      assert Fault(s, v, steps, e.problem);
    }
    if steps: seq<Step> :| Fault(s, v, steps, e.problem) && e.path == Where(path, steps) {
      var n :| 0 <= n < |s.shape| && FaultIn(s.shape[n], v.fields, steps, e.problem);
      assert FieldFaultAt(s.shape[n], v.fields, path, e);
    }
  }

  /** The validator complains exactly about the faults of the value, each under its own path. */
  lemma {:induction false} ErrorsAreFaults(s: Spec, v: Json, path: string, e: Error)
    ensures Complains(Validate(s, v, path), e) <==> FaultAt(s, v, path, e)
    decreases s
  {
    match s
    case Nullable(inner) =>
      if !v.JNull? {
        ErrorsAreFaults(inner, v, path, e);
        SameFaults(s, inner, v, path, e);
      }
    case Optional(inner) =>
      ErrorsAreFaults(inner, v, path, e);
      SameFaults(s, inner, v, path, e);
    case Arr(item) =>
      if v.JArr? {
        forall i | 0 <= i < |v.items|
          ensures Complains(Validate(item, v.items[i], ItemPath(path, i)), e) <==> FaultAt(item, v.items[i], ItemPath(path, i), e)
        {
          ErrorsAreFaults(item, v.items[i], ItemPath(path, i), e);
        }
        ItemFaults(item, v.items, path, e);
      } else {
        WholeFault(s, v, path, e);
      }
    case Obj(shape) =>
      if v.JObj? {
        forall n | 0 <= n < |shape|
          ensures FieldComplains(shape[n], v.fields, path, e) <==> FieldFaultAt(shape[n], v.fields, path, e)
        {
          var f := shape[n];
          if f.name in v.fields { ErrorsAreFaults(f.spec, v.fields[f.name], At(path, f.name), e); }
          FieldErrors(f, v.fields, path, e);
        }
        ObjectFaults(s, v, path, e);
      } else {
        WholeFault(s, v, path, e);
      }
    case _ => WholeFault(s, v, path, e);
  }
}
