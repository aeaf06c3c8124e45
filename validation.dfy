/** Field validators (RequireFieldValidation, CompareFieldsValidation) and ValidationComposite. */
module Validation {
  import opened Wrappers
  import opened Values
  import opened Errors

  /** The three implementations of `Validation`. A composite may hold composites. */
  datatype Validator =
    | Required(fieldName: string)
    | Compare(fieldName: string, fieldToCompareName: string)
    | Composite(validations: seq<Validator>)

  /** The field names a validator is configured with. */
  function Fields(v: Validator): set<string>
    decreases v
  {
    match v
    case Required(f) => {f}
    case Compare(f, g) => {f, g}
    case Composite(vs) => FieldsAll(vs)
  }

  function FieldsAll(vs: seq<Validator>): set<string>
    decreases vs
  {
    if vs == [] then {} else Fields(vs[0]) + FieldsAll(vs[1..])
  }

  /** `v.validate(input)`: the error `v` reports, or `None` for undefined.
      Every error is a parameter error naming one of the configured fields. */
  function ErrorOf(v: Validator, input: Body): (r: Option<Error>)
    ensures r.Some? ==> IsParamError(r.value) && r.value.paramName in Fields(v)
    decreases v
  {
    match v
    case Required(f) =>
      if !Truthy(Lookup(input, f)) then Some(MissingParam(f)) else None
    case Compare(f, g) =>
      if Lookup(input, f) != Lookup(input, g) then Some(InvalidParam(g)) else None
    case Composite(vs) =>
      FirstError(vs, input)
  }

  /** The composite's loop: the error of the first validator in list order that fails. */
  function FirstError(vs: seq<Validator>, input: Body): (r: Option<Error>)
    ensures r.Some? ==> IsParamError(r.value) && r.value.paramName in FieldsAll(vs)
    decreases vs
  {
    if vs == [] then None
    else match ErrorOf(vs[0], input)
      case Some(e) => Some(e)
      case None => FirstError(vs[1..], input)
  }

  /** One RequireFieldValidation per name, in the same order. */
  function RequiredAll(fields: seq<string>): seq<Validator> {
    seq(|fields|, i requires 0 <= i < |fields| => Required(fields[i]))
  }

  // ---- RequireFieldValidation ----

  /** Fails with MissingParam(field) exactly when the field is absent or falsy. */
  lemma RequiredSpec(field: string, input: Body)
    ensures ErrorOf(Required(field), input) == Some(MissingParam(field)) <==> !Truthy(Lookup(input, field))
    ensures ErrorOf(Required(field), input) == None <==> Truthy(Lookup(input, field))
  {
  }

  /** The test case: field 'field' missing from `{name: 'any_name'}`. */
  lemma RequiredMissingExample()
    ensures ErrorOf(Required("field"), map["name" := Str("any_name")]) == Some(MissingParam("field"))
    ensures Message(MissingParam("field")) == "Missing param: field"
  {
  }

  // ---- CompareFieldsValidation ----

  /** Fails with InvalidParam of the SECOND field exactly when the two values differ strictly. */
  lemma CompareSpec(field: string, other: string, input: Body)
    ensures ErrorOf(Compare(field, other), input) == Some(InvalidParam(other)) <==> Lookup(input, field) != Lookup(input, other)
    ensures ErrorOf(Compare(field, other), input) == None <==> Lookup(input, field) == Lookup(input, other)
  {
  }

  /** Swapping the names does not change whether an error occurs, only the name reported. */
  lemma CompareSymmetric(field: string, other: string, input: Body)
    ensures ErrorOf(Compare(field, other), input).Some? <==> ErrorOf(Compare(other, field), input).Some?
    ensures ErrorOf(Compare(other, field), input).Some? ==> ErrorOf(Compare(other, field), input) == Some(InvalidParam(field))
  {
  }

  /** `!==` does not coerce: the string "1" and the number 1 differ; both absent is no error,
      one absent is an error, and null differs from undefined. */
  lemma CompareStrictExamples()
    ensures ErrorOf(Compare("a", "b"), map["a" := Str("1"), "b" := Int(1)]) == Some(InvalidParam("b"))
    ensures ErrorOf(Compare("a", "b"), map[]) == None
    ensures ErrorOf(Compare("a", "b"), map["a" := Str("x")]) == Some(InvalidParam("b"))
    ensures ErrorOf(Compare("a", "b"), map["b" := Null]) == Some(InvalidParam("b"))
    ensures ErrorOf(Compare("field", "fieldToCompare"), map["field" := Str("any_value"), "fieldToCompare" := Str("any_value")]) == None
  {
  }

  /** Exactly one of the two fields absent always fails. */
  lemma CompareOneAbsent(field: string, other: string, input: Body)
    requires (field in input) != (other in input)
    ensures ErrorOf(Compare(field, other), input) == Some(InvalidParam(other))
  {
  }

  // ---- ValidationComposite ----

  /** A composite of one required email field, given only a password, reports the missing email. */
  lemma MissingEmailScenario()
    ensures FirstError([Required("email")], map["password" := Str("x")]) == Some(MissingParam("email"))
  {
  }

  /** No validator fails if and only if the composite reports nothing; the empty list reports nothing. */
  lemma {:induction false} FirstErrorNone(vs: seq<Validator>, input: Body)
    ensures FirstError(vs, input).None? <==> forall i :: 0 <= i < |vs| ==> ErrorOf(vs[i], input).None?
    decreases vs
  {
    if vs != [] {
      FirstErrorNone(vs[1..], input);
      assert forall i :: 1 <= i < |vs| ==> vs[i] == vs[1..][i - 1];
    }
  }

  /** If validator k is the first to fail, the composite reports exactly its error. */
  lemma {:induction false} FirstErrorAt(vs: seq<Validator>, input: Body, k: nat)
    requires k < |vs|
    requires forall j :: 0 <= j < k ==> ErrorOf(vs[j], input).None?
    requires ErrorOf(vs[k], input).Some?
    ensures FirstError(vs, input) == ErrorOf(vs[k], input)
    decreases k
  {
    if k > 0 {
      assert forall j :: 0 <= j < k - 1 ==> vs[1..][j] == vs[j + 1];
      FirstErrorAt(vs[1..], input, k - 1);
    }
  }

  /** Conversely, a reported error comes from some validator all of whose predecessors passed. */
  lemma {:induction false} FirstErrorWitness(vs: seq<Validator>, input: Body) returns (k: nat)
    requires FirstError(vs, input).Some?
    ensures k < |vs|
    ensures forall j :: 0 <= j < k ==> ErrorOf(vs[j], input).None?
    ensures ErrorOf(vs[k], input) == FirstError(vs, input)
    decreases vs
  {
    if ErrorOf(vs[0], input).Some? {
      k := 0;
    } else {
      var k' := FirstErrorWitness(vs[1..], input);
      k := k' + 1;
      assert forall j :: 1 <= j < k ==> vs[j] == vs[1..][j - 1];
    }
  }

  /** Running `a ++ b` is running `a`, and only if `a` passes, running `b`. */
  lemma {:induction false} FirstErrorAppend(a: seq<Validator>, b: seq<Validator>, input: Body)
    ensures FirstError(a + b, input) == if FirstError(a, input).Some? then FirstError(a, input) else FirstError(b, input)
    decreases a
  {
    if a == [] {
      assert a + b == b;
    } else {
      assert (a + b)[0] == a[0];
      assert (a + b)[1..] == a[1..] + b;
      FirstErrorAppend(a[1..], b, input);
    }
  }

  /** Nesting composites is transparent: [Composite(a), Composite(b)] behaves as the flat list a ++ b. */
  lemma NestingIsFlattening(a: seq<Validator>, b: seq<Validator>, input: Body)
    ensures ErrorOf(Composite([Composite(a), Composite(b)]), input) == ErrorOf(Composite(a + b), input)
  {
    FirstErrorAppend(a, b, input);
    var nested := [Composite(a), Composite(b)];
    assert nested[0] == Composite(a) && nested[1..] == [Composite(b)];
    assert [Composite(b)][1..] == [];
    assert FirstError([Composite(b)], input) == FirstError(b, input);
    assert FirstError(nested, input) == if FirstError(a, input).Some? then FirstError(a, input) else FirstError(b, input);
  }

  /** A validator's result depends only on the fields it is configured with. */
  lemma {:induction false} ErrorOfLocal(v: Validator, x: Body, y: Body)
    requires forall k :: k in Fields(v) ==> Lookup(x, k) == Lookup(y, k)
    ensures ErrorOf(v, x) == ErrorOf(v, y)
    decreases v
  {
    match v
    case Required(f) =>
    case Compare(f, g) =>
    case Composite(vs) => FirstErrorLocal(vs, x, y);
  }

  lemma {:induction false} FirstErrorLocal(vs: seq<Validator>, x: Body, y: Body)
    requires forall k :: k in FieldsAll(vs) ==> Lookup(x, k) == Lookup(y, k)
    ensures FirstError(vs, x) == FirstError(vs, y)
    decreases vs
  {
    if vs != [] {
      ErrorOfLocal(vs[0], x, y);
      FirstErrorLocal(vs[1..], x, y);
    }
  }

  /** The fields of a list of required-field validators are the listed names. */
  lemma {:induction false} RequiredAllFields(fields: seq<string>)
    ensures FieldsAll(RequiredAll(fields)) == set f | f in fields
    decreases fields
  {
    if fields != [] {
      RequiredAllFields(fields[1..]);
      assert RequiredAll(fields)[1..] == RequiredAll(fields[1..]);
    }
  }

  /** `new ValidationComposite(validations)`: the list is fixed at construction. */
  class ValidationComposite {
    const validations: seq<Validator>

    constructor (validations: seq<Validator>)
      ensures this.validations == validations
    {
      this.validations := validations;
    }

    /** The `for...of` loop with early return. `ran` is the validators actually invoked:
        a prefix of the list that stops at the first failure. */
    method Validate(input: Body) returns (error: Option<Error>, ghost ran: seq<Validator>)
      ensures error == FirstError(validations, input)
      ensures |ran| <= |validations| && ran == validations[..|ran|]
      ensures forall j :: 0 <= j < |ran| - 1 ==> ErrorOf(ran[j], input).None?
      ensures error.None? ==> ran == validations
      ensures error.Some? ==> |ran| > 0 && error == ErrorOf(ran[|ran| - 1], input)
    {
      ran := [];
      var i := 0;
      while i < |validations|
        invariant 0 <= i <= |validations|
        invariant ran == validations[..i]
        invariant forall j :: 0 <= j < i ==> ErrorOf(validations[j], input).None?
        invariant FirstError(validations, input) == FirstError(validations[i..], input)
      {
        var validation := validations[i];
        ran := ran + [validation];
        var e := ErrorOf(validation, input);
        assert validations[i..][0] == validation && validations[i..][1..] == validations[i + 1..];
        if e.Some? {
          assert ran == validations[..i + 1];
          return e, ran;
        }
        i := i + 1;
      }
      assert validations[i..] == [];
      return None, ran;
    }
  }
}
