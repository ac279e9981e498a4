/**
 * The manual cache-clearing form: its submitted text becomes one URL per
 * line, and its domain and action selections default to the form state or,
 * failing that, to the choices stored by the settings form.
 */
module CacheControlForm {
  import opened Php
  import ConfigForm

  /** PHP_EOL on the server the module runs on. */
  const Eol := '\n'

  /** `explode(PHP_EOL, $paths)` copied entry by entry into `$urls_to_clear`,
      the list handed to `purgeUrls` in one call. */
  method SubmitForm(paths: string) returns (urlsToClear: seq<string>)
    ensures urlsToClear == Explode(Eol, paths)
    ensures |urlsToClear| == Count(Eol, paths) + 1
    ensures forall i :: 0 <= i < |urlsToClear| ==> Eol !in urlsToClear[i]
    ensures Implode(Eol, urlsToClear) == paths
  {
    var segments := Explode(Eol, paths);
    urlsToClear := [];
    for i := 0 to |segments|
      invariant urlsToClear == segments[..i]
    {
      urlsToClear := urlsToClear + [segments[i]];
      assert segments[..i + 1] == segments[..i] + [segments[i]];
    }
    assert segments[..|segments|] == segments;
    ExplodeShape(Eol, paths);
    ImplodeExplode(Eol, paths);
  }

  /** `$form_state->get($name) ?: key(array_filter($config->get($name)))`: the
      form state's own value when truthy, else the first TRUE key of the stored
      mapping, else NULL. */
  function SelectionDefault(stateValue: Value, mapping: Array<Value>): (d: Value)
    ensures Truthy(stateValue) ==> d == stateValue
    ensures !Truthy(stateValue) ==>
      (d == Null <==> forall i :: 0 <= i < |mapping| ==> !Truthy(mapping[i].1))
    ensures !Truthy(stateValue) && d != Null ==>
      (exists i :: 0 <= i < |mapping| && d == Str(mapping[i].0) &&
        Truthy(mapping[i].1) && forall j :: 0 <= j < i ==> !Truthy(mapping[j].1))
  {
    FirstTruthyKeyIsFirst(mapping);
    if Truthy(stateValue) then stateValue
    else match FirstTruthyKey(mapping)
      case None => Null
      case Some(k) => Str(k)
  }

  /** A select or radios element as the array literal writes it: '#default_value'
      appears twice, first with the older single setting, then with the computed
      default. */
  function SelectionElement(kind: string, title: string, legacyDefault: Value, options: seq<string>, default: Value): Array<Value> {
    Literal([
      ("#type", Str(kind)),
      ("#title", Str(title)),
      ("#default_value", legacyDefault),
      ("#options", List(options)),
      ("#default_value", default)
    ])
  }

  /** The later '#default_value' wins, keeping the place of the first: the
      element has four entries and its default is the computed one. */
  lemma {:induction false} LaterDefaultWins(kind: string, title: string, legacyDefault: Value, options: seq<string>, default: Value)
    ensures var e := SelectionElement(kind, title, legacyDefault, options, default);
      |e| == 4 && e[2] == ("#default_value", default) &&
      Lookup(e, "#default_value") == Some(default) &&
      Lookup(e, "#options") == Some(List(options))
  {
    var e0, e1, e2 := ("#type", Str(kind)), ("#title", Str(title)), ("#default_value", legacyDefault);
    var e3, e4 := ("#options", List(options)), ("#default_value", default);
    var entries := [e0, e1, e2, e3, e4];
    LiteralLookup(entries, "#default_value", 4);
    LiteralLookup(entries, "#options", 3);
    forall n | 0 <= n < 4
      ensures Literal(entries[..n + 1]) == Assign(Literal(entries[..n]), entries[n].0, entries[n].1)
      ensures entries[..n] + [(entries[n].0, entries[n].1)] == entries[..n + 1]
    {
      assert entries[..n + 1][..n] == entries[..n];
    }
    assert Literal(entries[..0]) == entries[..0];
    AssignAppends(entries[..0], e0.0, e0.1);
    AssignAppends(entries[..1], e1.0, e1.1);
    assert e0.0 != e2.0 by { assert |e0.0| != |e2.0|; }
    assert e1.0 != e2.0 by { assert |e1.0| != |e2.0|; }
    assert e0.0 != e3.0 by { assert |e0.0| != |e3.0|; }
    assert e1.0 != e3.0 by { assert |e1.0| != |e3.0|; }
    assert e2.0 != e3.0 by { assert |e2.0| != |e3.0|; }
    assert entries[..2] == [e0, e1] && entries[..3] == [e0, e1, e2];
    assert [e0, e1][0] == e0 && [e0, e1][1] == e1;
    AssignAppends([e0, e1], e2.0, e2.1);
    AssignAppends([e0, e1, e2], e3.0, e3.1);
    assert entries[..5] == entries;
    AssignReplaces(entries[..4], e4.0, e4.1, 2);
  }

  /** The 'domain_override' select: `#default_value` first from 'akamai_domain',
      then from the computed domain default. */
  function DomainOverrideElement(settings: Record, stateValue: Value, domain: Array<Value>): (e: Array<Value>)
    ensures Lookup(e, "#default_value") == Some(SelectionDefault(stateValue, domain))
    ensures Lookup(e, "#options") == Some(List([ConfigForm.Production, ConfigForm.Staging]))
  {
    var default := SelectionDefault(stateValue, domain);
    var options := [ConfigForm.Production, ConfigForm.Staging];
    LaterDefaultWins("select", "Domain", Field(settings, "akamai_domain"), options, default);
    SelectionElement("select", "Domain", Field(settings, "akamai_domain"), options, default)
  }

  /** The 'action' radios: `#default_value` first from 'akamai_action', then
      from the computed action default. */
  function ActionElement(settings: Record, stateValue: Value, action: Array<Value>): (e: Array<Value>)
    ensures Lookup(e, "#default_value") == Some(SelectionDefault(stateValue, action))
    ensures Lookup(e, "#options") == Some(List([ConfigForm.Remove, ConfigForm.Invalidate]))
  {
    var default := SelectionDefault(stateValue, action);
    var options := [ConfigForm.Remove, ConfigForm.Invalidate];
    LaterDefaultWins("radios", "Clearing Action Type", Field(settings, "akamai_action"), options, default);
    SelectionElement("radios", "Clearing Action Type", Field(settings, "akamai_action"), options, default)
  }

  /** With nothing in the form state, the form offers the domain and action
      last saved on the settings form, and a value in the form state always
      takes precedence. */
  lemma SavedChoicesAreDefaults(settings: Record, domain: string, action: string, stateDomain: Value, stateAction: Value)
    ensures Lookup(DomainOverrideElement(settings, Null, ConfigForm.SaveDomain(domain)), "#default_value") == Some(Str(domain))
    ensures Lookup(ActionElement(settings, Null, ConfigForm.SaveAction(action)), "#default_value") == Some(Str(action))
    ensures Truthy(stateDomain) ==>
      Lookup(DomainOverrideElement(settings, stateDomain, ConfigForm.SaveDomain(domain)), "#default_value") == Some(stateDomain)
    ensures Truthy(stateAction) ==>
      Lookup(ActionElement(settings, stateAction, ConfigForm.SaveAction(action)), "#default_value") == Some(stateAction)
  {
    assert FirstTruthyKey(ConfigForm.SaveDomain(domain)) == Some(domain);
    assert FirstTruthyKey(ConfigForm.SaveAction(action)) == Some(action);
  }
}
