/**
 * The validator pipeline that `generateValidation` and
 * `generateSingleValidation` emit: every declared validator is applied, in
 * order, to the same mapped value; their errors are appended to one list;
 * a non-empty list is thrown as one `ConfigValidationException`, an empty one
 * lets the value through unchanged. No validator stops the others.
 */
module Validation {
  import opened Values

  /** A validator: the errors it reports about a value (empty when the value passes). */
  type Validator = Value -> seq<string>

  /** The errors the pipeline collects: those of each validator, in declared order. */
  function AllErrors(validators: seq<Validator>, v: Value): (errors: seq<string>)
    decreases |validators|
  {
    if validators == [] then []
    else AllErrors(validators[..|validators| - 1], v) + validators[|validators| - 1](v)
  }

  /** The pipeline's outcome for a mapped value. */
  function Validate(v: Value, validators: seq<Validator>): (r: Result<Value>)
    ensures r.Ok? <==> AllErrors(validators, v) == []
    ensures r.Ok? ==> r.value == v
    ensures r.Err? ==> r.error == ConfigValidation(AllErrors(validators, v))
  {
    if |validators| == 0 then Ok(v)  // no validators: no code is generated at all
    else
      var errors := AllErrors(validators, v);
      if errors == [] then Ok(v) else Err(ConfigValidation(errors))
  }

  /**
   * What the generated code does at run time: a fresh `ArrayList`, one
   * `addAll` per validator, then the `isEmpty` test.
   */
  method RunValidation(v: Value, validators: seq<Validator>) returns (r: Result<Value>)
    ensures r == Validate(v, validators)
  {
    if |validators| == 0 {
      return Ok(v);
    }
    var errors: seq<string> := [];
    var i := 0;
    while i < |validators|
      invariant 0 <= i <= |validators|
      invariant errors == AllErrors(validators[..i], v)
    {
      assert validators[..i + 1][..i] == validators[..i];
      errors := errors + validators[i](v);
      i := i + 1;
    }
    assert validators[..i] == validators;
    if errors == [] {
      r := Ok(v);
    } else {
      r := Err(ConfigValidation(errors));
    }
  }

  /** Collecting over two runs of validators appends their error lists. */
  lemma {:induction false} AllErrorsAppend(a: seq<Validator>, b: seq<Validator>, v: Value)
    ensures AllErrors(a + b, v) == AllErrors(a, v) + AllErrors(b, v)
    decreases |b|
  {
    if b == [] {
      assert a + b == a;
    } else {
      var b' := b[..|b| - 1];
      assert (a + b)[..|a + b| - 1] == a + b';
      AllErrorsAppend(a, b', v);
    }
  }

  /**
   * No short circuit: the errors of validator k sit, whole, between those of
   * the validators before it and those after it.
   */
  lemma ErrorsInDeclaredOrder(validators: seq<Validator>, v: Value, k: nat)
    requires k < |validators|
    ensures AllErrors(validators, v)
         == AllErrors(validators[..k], v) + validators[k](v) + AllErrors(validators[k + 1..], v)
  {
    assert validators == validators[..k] + ([validators[k]] + validators[k + 1..]);
    AllErrorsAppend(validators[..k], [validators[k]] + validators[k + 1..], v);
    AllErrorsAppend([validators[k]], validators[k + 1..], v);
    assert [validators[k]][..0] == [];
  }

  /** The pipeline fails exactly when some validator reports an error. */
  lemma {:induction false} FailsIffSomeValidatorFails(validators: seq<Validator>, v: Value)
    ensures Validate(v, validators).Err? <==> exists k :: 0 <= k < |validators| && validators[k](v) != []
    decreases |validators|
  {
    if validators != [] {
      var n := |validators| - 1;
      var front := validators[..n];
      FailsIffSomeValidatorFails(front, v);
      if exists k :: 0 <= k < |validators| && validators[k](v) != [] {
        var k :| 0 <= k < |validators| && validators[k](v) != [];
        if k < n {
          assert front[k] == validators[k];
        }
      } else {
        forall k | 0 <= k < |front|
          ensures front[k](v) == []
        {
          assert front[k] == validators[k];
        }
      }
    }
  }

  /** With no validators declared the value is never checked. */
  lemma NoValidatorsNoCheck(v: Value)
    ensures Validate(v, []) == Ok(v)
  {
  }

  /** A passing validator followed by one failing with "X" yields exactly ["X"]. */
  lemma PassThenFail(v: Value, pass: Validator, fail: Validator)
    requires pass(v) == [] && fail(v) == ["X"]
    ensures Validate(v, [pass, fail]) == Err(ConfigValidation(["X"]))
  {
    assert [pass, fail][..1] == [pass];
    assert [pass][..0] == [];
    assert AllErrors([pass], v) == [];
    assert AllErrors([pass, fail], v) == ["X"];
  }

  /**
   * The repository's "one passing and one failing validator" fixture
   * declares two failing validators: its exception carries both errors, so
   * it does contain the first one.
   */
  lemma OnePassingOneFailingFixture(v: Value, a: Validator, b: Validator)
    requires a(v) == ["Failure A"] && b(v) == ["Failure B"]
    ensures Validate(v, [a, b]).Err?
    ensures "Failure A" in Validate(v, [a, b]).error.errors
    ensures "Failure B" in Validate(v, [a, b]).error.errors
  {
    FailThenFail(v, a, b);
  }

  /** Two failing validators report both errors, in declared order. */
  lemma FailThenFail(v: Value, a: Validator, b: Validator)
    requires a(v) == ["Failure A"] && b(v) == ["Failure B"]
    ensures Validate(v, [a, b]) == Err(ConfigValidation(["Failure A", "Failure B"]))
  {
    assert [a, b][..1] == [a];
    assert [a][..0] == [];
    assert AllErrors([a], v) == ["Failure A"];
    assert AllErrors([a, b], v) == ["Failure A"] + ["Failure B"];
  }
}
