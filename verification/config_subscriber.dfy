/**
 * Re-checks the Akamai credentials whenever a save of the module's settings
 * touches one of them, and records the verdict in the site state.
 */
module ConfigSubscriber {
  import opened Php

  const SettingsName := "akamai.settings"
  const ValidCredentials := "akamai.valid_credentials"
  /** `ConfigEvents::SAVE`. */
  const ConfigSave := "config.save"

  /** The settings whose change invalidates the stored verdict. */
  const CredentialKeys: set<string> := {"rest_api_url", "client_token", "client_secret", "access_token"}

  /** A config save: the name of the saved config and the keys whose value changed. */
  datatype ConfigCrudEvent = ConfigCrudEvent(name: string, changed: set<string>)

  /** `$event->isChanged($key)`. */
  predicate IsChanged(event: ConfigCrudEvent, key: string) {
    key in event.changed
  }

  /** The saved config is the module's settings and one of the four
      credential settings changed. */
  predicate CredentialsChanged(event: ConfigCrudEvent) {
    event.name == SettingsName &&
    (IsChanged(event, "rest_api_url") || IsChanged(event, "client_token") ||
     IsChanged(event, "client_secret") || IsChanged(event, "access_token"))
  }

  /** The site state: a key-value store. */
  class StateStore {
    var entries: Record

    constructor ()
      ensures entries == map[]
    {
      entries := map[];
    }

    /** `\Drupal::state()->set($key, $value)`. */
    method Set(key: string, value: Value)
      modifies this
      ensures entries == old(entries)[key := value]
    {
      entries := entries[key := value];
    }
  }

  /** The state after a save event: the verdict `isAuthorized` is written
      under 'akamai.valid_credentials' when credentials changed, and nothing
      is written otherwise. */
  function AfterSave(entries: Record, event: ConfigCrudEvent, isAuthorized: bool): (r: Record)
    ensures CredentialsChanged(event) ==> Field(r, ValidCredentials) == Bool(isAuthorized)
    ensures !CredentialsChanged(event) ==> Field(r, ValidCredentials) == Field(entries, ValidCredentials)
    ensures forall k :: k != ValidCredentials ==> Field(r, k) == Field(entries, k)
    ensures r.Keys - {ValidCredentials} == entries.Keys - {ValidCredentials}
  {
    if CredentialsChanged(event) then entries[ValidCredentials := Bool(isAuthorized)] else entries
  }

  /** `onConfigSave`; `isAuthorized` is what the EdgeGrid client's credential
      check answers, asked only when credentials changed. */
  method OnConfigSave(state: StateStore, event: ConfigCrudEvent, isAuthorized: bool)
    modifies state
    ensures state.entries == AfterSave(old(state.entries), event, isAuthorized)
  {
    if event.name == SettingsName {
      if IsChanged(event, "rest_api_url") || IsChanged(event, "client_token") ||
         IsChanged(event, "client_secret") || IsChanged(event, "access_token") {
        state.Set(ValidCredentials, Bool(isAuthorized));
      }
    }
  }

  /** The verdict is rewritten exactly when the saved config is the module's
      settings and the changed keys include a credential. */
  lemma CredentialsChangedIff(event: ConfigCrudEvent)
    ensures CredentialsChanged(event) <==> event.name == SettingsName && event.changed * CredentialKeys != {}
  {
    if event.changed * CredentialKeys != {} {
      var k :| k in event.changed * CredentialKeys;
      assert k == "rest_api_url" || k == "client_token" || k == "client_secret" || k == "access_token";
    }
    if IsChanged(event, "rest_api_url") {
      assert "rest_api_url" in event.changed * CredentialKeys;
    } else if IsChanged(event, "client_token") {
      assert "client_token" in event.changed * CredentialKeys;
    } else if IsChanged(event, "client_secret") {
      assert "client_secret" in event.changed * CredentialKeys;
    } else if IsChanged(event, "access_token") {
      assert "access_token" in event.changed * CredentialKeys;
    }
  }

  /** A save that changes only other settings (timeout, basepath, domain, ...),
      or a save of any other config, leaves the whole state as it was. */
  lemma OtherChangesLeaveStateAlone(entries: Record, event: ConfigCrudEvent, isAuthorized: bool)
    requires event.name != SettingsName || event.changed * CredentialKeys == {}
    ensures AfterSave(entries, event, isAuthorized) == entries
  {
    CredentialsChangedIff(event);
  }

  /** Only the credential keys decide: two saves of the same config that agree
      on which credentials changed leave the same state. */
  lemma OnlyCredentialKeysDecide(entries: Record, e1: ConfigCrudEvent, e2: ConfigCrudEvent, isAuthorized: bool)
    requires e1.name == e2.name && e1.changed * CredentialKeys == e2.changed * CredentialKeys
    ensures AfterSave(entries, e1, isAuthorized) == AfterSave(entries, e2, isAuthorized)
  {
    CredentialsChangedIff(e1);
    CredentialsChangedIff(e2);
  }

  /** The listeners registered per event: `onConfigSave` on the config save
      event at priority 0, and nothing else. */
  function GetSubscribedEvents(): (events: map<string, seq<(string, int)>>)
    ensures events.Keys == {ConfigSave}
    ensures events[ConfigSave] == [("onConfigSave", 0)]
  {
    map[ConfigSave := [("onConfigSave", 0)]]
  }
}
