/**
 * The earlier settings form. Its mapping helpers are separate copies of the
 * ones in the current form; this module models them as written here and
 * proves that both forms store and reload the domain and action alike.
 */
module AkamaiConfigForm {
  import opened Php
  import ConfigForm

  /** `key(array_filter($array))`: the key of the first truthy value, NULL when none. */
  function GetMappingKey(mapping: Array<Value>): (r: Option<string>)
    ensures r.None? <==> forall i :: 0 <= i < |mapping| ==> !Truthy(mapping[i].1)
    ensures r.Some? ==>
      (exists i :: 0 <= i < |mapping| && mapping[i].0 == r.value &&
        Truthy(mapping[i].1) && forall j :: 0 <= j < i ==> !Truthy(mapping[j].1))
  {
    FirstTruthyKeyIsFirst(mapping);
    KeyOf(ArrayFilter(mapping))
  }

  /** Both domains FALSE, then the submitted one TRUE. */
  function SaveDomain(value: string): (r: Array<Value>)
    ensures Lookup(r, "production").Some? && Lookup(r, "staging").Some?
    ensures Lookup(r, value) == Some(Bool(true))
    ensures value in {"production", "staging"} ==> |r| == 2
    ensures GetMappingKey(r) == Some(value)
  {
    var domain := [("production", Bool(false)), ("staging", Bool(false))];
    FilterOneHot(domain, value);
    AssignLookup(domain, value, Bool(true), value);
    AssignLength(domain, value, Bool(true));
    assert domain[1..][1..] == [];
    Assign(domain, value, Bool(true))
  }

  /** Both actions FALSE, then the submitted one TRUE. */
  function SaveAction(value: string): (r: Array<Value>)
    ensures Lookup(r, "remove").Some? && Lookup(r, "invalidate").Some?
    ensures Lookup(r, value) == Some(Bool(true))
    ensures value in {"remove", "invalidate"} ==> |r| == 2
    ensures GetMappingKey(r) == Some(value)
  {
    var action := [("remove", Bool(false)), ("invalidate", Bool(false))];
    FilterOneHot(action, value);
    AssignLookup(action, value, Bool(true), value);
    AssignLength(action, value, Bool(true));
    assert action[1..][1..] == [];
    Assign(action, value, Bool(true))
  }

  /** The two forms agree: the same submitted value is stored as the same
      mapping, and the same mapping reloads as the same selection. */
  lemma SameMappingsAsConfigForm(value: string, mapping: Array<Value>)
    ensures SaveDomain(value) == ConfigForm.SaveDomain(value)
    ensures SaveAction(value) == ConfigForm.SaveAction(value)
    ensures GetMappingKey(mapping) == ConfigForm.GetMappingKey(mapping)
  {
  }
}
