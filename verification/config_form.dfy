/**
 * The settings form's non-UI logic: domain and action are stored as one-hot
 * maps of booleans and read back as the first TRUE key, and the two numeric
 * settings must be strings of decimal digits.
 */
module ConfigForm {
  import opened Php

  const Production := "production"
  const Staging := "staging"
  const Remove := "remove"
  const Invalidate := "invalidate"

  /** The fields `validateForm` checks, in the order it checks them. */
  const IntFields: seq<string> := ["timeout", "status_expire"]

  /** `key(array_filter($array))`: the key of the first truthy value, NULL when none. */
  function GetMappingKey(mapping: Array<Value>): (r: Option<string>)
    ensures r.None? <==> forall i :: 0 <= i < |mapping| ==> !Truthy(mapping[i].1)
    ensures r.Some? ==>
      (exists i :: 0 <= i < |mapping| && mapping[i].0 == r.value &&
        Truthy(mapping[i].1) && forall j :: 0 <= j < i ==> !Truthy(mapping[j].1))
  {
    FirstTruthyKeyIsFirst(mapping);
    FirstTruthyKey(mapping)
  }

  /** The stored domain mapping: both known domains FALSE, then `$domain[$value] = TRUE`. */
  function SaveDomain(value: string): (r: Array<Value>)
    ensures Lookup(r, Production).Some? && Lookup(r, Staging).Some?
    ensures Lookup(r, value) == Some(Bool(true))
    ensures value == Production ==> r == [(Production, Bool(true)), (Staging, Bool(false))]
    ensures value == Staging ==> r == [(Production, Bool(false)), (Staging, Bool(true))]
    ensures value != Production && value != Staging ==>
      r == [(Production, Bool(false)), (Staging, Bool(false)), (value, Bool(true))]
    ensures GetMappingKey(r) == Some(value)
  {
    var domain := [(Production, Bool(false)), (Staging, Bool(false))];
    FilterOneHot(domain, value);
    AssignLookup(domain, value, Bool(true), value);
    assert domain[1..][1..] == [];
    assert Assign(domain[1..][1..], value, Bool(true)) == [(value, Bool(true))];
    Assign(domain, value, Bool(true))
  }

  /** The stored action mapping: both known actions FALSE, then `$action[$value] = TRUE`. */
  function SaveAction(value: string): (r: Array<Value>)
    ensures Lookup(r, Remove).Some? && Lookup(r, Invalidate).Some?
    ensures Lookup(r, value) == Some(Bool(true))
    ensures value == Remove ==> r == [(Remove, Bool(true)), (Invalidate, Bool(false))]
    ensures value == Invalidate ==> r == [(Remove, Bool(false)), (Invalidate, Bool(true))]
    ensures value != Remove && value != Invalidate ==>
      r == [(Remove, Bool(false)), (Invalidate, Bool(false)), (value, Bool(true))]
    ensures GetMappingKey(r) == Some(value)
  {
    var action := [(Remove, Bool(false)), (Invalidate, Bool(false))];
    FilterOneHot(action, value);
    AssignLookup(action, value, Bool(true), value);
    assert action[1..][1..] == [];
    assert Assign(action[1..][1..], value, Bool(true)) == [(value, Bool(true))];
    Assign(action, value, Bool(true))
  }

  /** For a value the select offers, exactly one of the two keys is TRUE: the one chosen. */
  lemma {:induction false} SavedMappingsAreOneHot(domain: string, action: string)
    requires domain == Production || domain == Staging
    requires action == Remove || action == Invalidate
    ensures |SaveDomain(domain)| == 2 && |SaveAction(action)| == 2
    ensures forall i :: 0 <= i < 2 ==>
      (Truthy(SaveDomain(domain)[i].1) <==> SaveDomain(domain)[i].0 == domain)
    ensures forall i :: 0 <= i < 2 ==>
      (Truthy(SaveAction(action)[i].1) <==> SaveAction(action)[i].0 == action)
  {
  }

  function IsDigit(c: char): bool { '0' <= c <= '9' }

  /** `ctype_digit($v)`: a string is accepted when it is non-empty and every
      character is a decimal digit; an integer from -128 to 255 is read as an
      ASCII code, a larger one as its decimal text; anything else is rejected. */
  predicate CtypeDigit(v: Value) {
    match v
    case Str(s) => s != "" && forall i :: 0 <= i < |s| ==> IsDigit(s[i])
    case Int(n) => (48 <= n <= 57) || n > 255
    case _ => false
  }

  /** The fields among `fields` whose submitted value is not all digits, in order. */
  function Flagged(fields: seq<string>, values: Record): seq<string> {
    if fields == [] then []
    else
      var f := fields[|fields| - 1];
      Flagged(fields[..|fields| - 1], values) + (if CtypeDigit(Field(values, f)) then [] else [f])
  }

  lemma {:induction false} FlaggedMembers(fields: seq<string>, values: Record, f: string)
    ensures f in Flagged(fields, values) <==> f in fields && !CtypeDigit(Field(values, f))
    decreases |fields|
  {
    if fields != [] {
      var init := fields[..|fields| - 1];
      FlaggedMembers(init, values, f);
      assert fields == init + [fields[|fields| - 1]];
    }
  }

  /** `validateForm`: one error per integer field whose value is not a
      non-empty string of digits, named by that field, in field order. */
  method ValidateForm(values: Record) returns (errors: seq<string>)
    ensures errors == Flagged(IntFields, values)
    ensures forall f :: f in errors <==> f in IntFields && !CtypeDigit(Field(values, f))
  {
    errors := [];
    for i := 0 to |IntFields|
      invariant errors == Flagged(IntFields[..i], values)
    {
      var field := IntFields[i];
      if !CtypeDigit(Field(values, field)) {
        errors := errors + [field];
      }
      assert IntFields[..i + 1][..i] == IntFields[..i];
    }
    assert IntFields[..|IntFields|] == IntFields;
    forall f ensures f in errors <==> f in IntFields && !CtypeDigit(Field(values, f)) {
      FlaggedMembers(IntFields, values, f);
    }
  }

  /** Empty, signed and decimal-point input is rejected; plain digits pass. */
  lemma DigitsOnly()
    ensures !CtypeDigit(Str("")) && !CtypeDigit(Str("-1")) && !CtypeDigit(Str("2.5"))
    ensures CtypeDigit(Str("30")) && CtypeDigit(Str("0"))
    ensures !CtypeDigit(Null)
  {
    assert !IsDigit("-1"[0]);
    assert !IsDigit("2.5"[1]);
  }

  /** Only 'timeout' and 'status_expire' are inspected: submissions that agree
      on those two fields get the same errors. */
  lemma {:induction false} OnlyIntFieldsInspected(values: Record, other: Record)
    requires forall f :: f in IntFields ==> Field(values, f) == Field(other, f)
    ensures Flagged(IntFields, values) == Flagged(IntFields, other)
  {
    assert IntFields[..1][..0] == [];
    assert Flagged(IntFields[..0], values) == [] == Flagged(IntFields[..0], other);
    assert Flagged(IntFields[..1], values) == Flagged(IntFields[..1], other) by {
      assert IntFields[..1][..0] == IntFields[..0];
    }
    assert IntFields[..2] == IntFields;
    assert IntFields[..2][..1] == IntFields[..1];
  }
}
