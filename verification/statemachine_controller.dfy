/**
 * The two steps of the payments state machine. Each step receives the request
 * body (the envelope `{input, output, ...}`), writes its own result under one
 * key of `output` with an object spread, and sends the whole body back.
 * `Date.now()` is the parameter `now`.
 */
module StatemachineController {
  import opened Wrappers
  import opened Js

  /** `{key: tag, time: now}`, the value a step writes. */
  function StepValue(tag: string, now: int): Value {
    Obj(map["key" := Str(tag), "time" := Num(now as real)])
  }

  /** The `output` a body carries before a step runs, as the spread sees it. */
  function PriorOutput(fields: map<string, Value>): map<string, Value> {
    Spread(if "output" in fields then Some(fields["output"]) else None)
  }

  /**
   * `after` is `before` with `output` replaced by the prior output plus
   * `key := value`: no other field of the body changes, no key of the prior
   * output is lost, and only `key` may take a new value.
   */
  ghost predicate Accumulates(before: map<string, Value>, after: map<string, Value>, key: string, value: Value) {
    && after.Keys == before.Keys + {"output"}
    && (forall k :: k in before && k != "output" ==> after[k] == before[k])
    && after["output"].Obj?
    && after["output"].fields.Keys == PriorOutput(before).Keys + {key}
    && after["output"].fields[key] == value
    && (forall k :: k in PriorOutput(before) && k != key ==> after["output"].fields[k] == PriorOutput(before)[k])
  }

  /**
   * One step: `req.body.output = {...req.body.output, [key]: value}; res.send(req.body)`.
   * Reading `req.body.input` throws on a `null` body, and assigning a property
   * of a primitive throws in module (strict) code. On an array the new property
   * is set but is not part of the array's JSON, so the array comes back as it was.
   */
  function RunStep(key: string, tag: string, body: Value, now: int): (r: Result<Value, Thrown>)
    ensures r.Success? <==> body.Obj? || body.Arr?
    ensures body.Arr? ==> r == Success(body)
    ensures body.Obj? ==> r.value.Obj? && Accumulates(body.fields, r.value.fields, key, StepValue(tag, now))
  {
    match body
    case Obj(fields) =>
      var output := PriorOutput(fields)[key := StepValue(tag, now)];
      Success(Obj(fields["output" := Obj(output)]))
    case Arr(_) => Success(body)
    case Null => Failure(TypeError("Cannot read properties of null (reading 'input')"))
    case _ => Failure(TypeError("Cannot create property 'output' on a primitive"))
  }

  /** `state1`: writes `output.state1Value = {key: 'state1', time: now}`. */
  function State1(body: Value, now: int): (r: Result<Value, Thrown>)
    ensures r.Success? <==> body.Obj? || body.Arr?
    ensures body.Obj? ==> r.value.Obj? && Accumulates(body.fields, r.value.fields, "state1Value", StepValue("state1", now))
  {
    RunStep("state1Value", "state1", body, now)
  }

  /** `state2`: writes `output.state2Value = {key: 'state2', time: now}`. */
  function State2(body: Value, now: int): (r: Result<Value, Thrown>)
    ensures r.Success? <==> body.Obj? || body.Arr?
    ensures body.Obj? ==> r.value.Obj? && Accumulates(body.fields, r.value.fields, "state2Value", StepValue("state2", now))
  {
    RunStep("state2Value", "state2", body, now)
  }

  /** A body without `output` (or with a falsy non-object one) comes back with an `output` holding only the step's key. */
  lemma MissingOutputHoldsOnlyStepKey(fields: map<string, Value>, now: int)
    requires "output" !in fields || fields["output"] in {Null, Bool(false), Bool(true)} || fields["output"].Num?
    ensures State1(Obj(fields), now).value.fields["output"] == Obj(map["state1Value" := StepValue("state1", now)])
  {
    var out := State1(Obj(fields), now).value.fields["output"];
    assert PriorOutput(fields) == map[];
    assert out.fields.Keys == {"state1Value"};
  }

  /**
   * Running `state1` and then `state2` on an object body keeps every field
   * of the body, every key its `output` had, and adds both step keys; the
   * second step leaves the first step's key alone.
   */
  lemma {:induction false} StepsAccumulate(fields: map<string, Value>, t1: int, t2: int)
    ensures State1(Obj(fields), t1).Success?
    ensures State2(State1(Obj(fields), t1).value, t2).Success?
    ensures
      var final := State2(State1(Obj(fields), t1).value, t2).value;
      && final.Obj?
      && final.fields.Keys == fields.Keys + {"output"}
      && (forall k :: k in fields && k != "output" ==> final.fields[k] == fields[k])
      && final.fields["output"].Obj?
      && var out := final.fields["output"].fields;
      && out.Keys == PriorOutput(fields).Keys + {"state1Value", "state2Value"}
      && out["state1Value"] == StepValue("state1", t1)
      && out["state2Value"] == StepValue("state2", t2)
      && (forall k :: k in PriorOutput(fields) && k != "state1Value" && k != "state2Value" ==> out[k] == PriorOutput(fields)[k])
  {
    var mid := State1(Obj(fields), t1).value;
    assert Accumulates(fields, mid.fields, "state1Value", StepValue("state1", t1));
    var final := State2(mid, t2).value;
    assert Accumulates(mid.fields, final.fields, "state2Value", StepValue("state2", t2));
    assert PriorOutput(mid.fields) == mid.fields["output"].fields;
  }

  /**
   * The run the workflow starts with, `{input, output: {}}`: after `state1`
   * then `state2` the envelope holds the untouched input and exactly the two
   * step results.
   */
  lemma FreshRun(input: Value, t1: int, t2: int)
    ensures State1(Obj(map["input" := input, "output" := Obj(map[])]), t1).Success?
    ensures State2(State1(Obj(map["input" := input, "output" := Obj(map[])]), t1).value, t2)
      == Success(Obj(map["input" := input,
                         "output" := Obj(map["state1Value" := StepValue("state1", t1), "state2Value" := StepValue("state2", t2)])]))
  {
    var start := map["input" := input, "output" := Obj(map[])];
    StepsAccumulate(start, t1, t2);
    var final := State2(State1(Obj(start), t1).value, t2).value;
    assert PriorOutput(start) == map[];
    var out := map["state1Value" := StepValue("state1", t1), "state2Value" := StepValue("state2", t2)];
    assert final.fields["output"].fields == out;
    assert final.fields == map["input" := input, "output" := Obj(out)];
  }
}
