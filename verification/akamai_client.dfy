/**
 * The EdgeGrid client's own configuration: in development mode requests go
 * to the mock endpoint as their base URI, and the request timeout always
 * comes from the settings.
 */
module AkamaiClient {
  import opened Php
  import AkamaiContentControlClient

  const BaseUri := "base_uri"
  const Timeout := "timeout"

  /** `$config->get('akamai_devel_mode') == TRUE`, PHP's loose comparison. */
  predicate DevelMode(settings: Record) {
    Truthy(Field(settings, "akamai_devel_mode"))
  }

  /** The client config after one `createClientConfig` over `current`: the mock
      endpoint as base URI in development mode, the configured timeout always,
      and every other key as it was. */
  function ClientConfig(current: Record, settings: Record): (c: Record)
    ensures Timeout in c && c[Timeout] == Field(settings, "akamai_timeout")
    ensures DevelMode(settings) ==> BaseUri in c && c[BaseUri] == Field(settings, "akamai_mock_endpoint")
    ensures !DevelMode(settings) ==> Field(c, BaseUri) == Field(current, BaseUri)
    ensures c.Keys == current.Keys + {Timeout} + (if DevelMode(settings) then {BaseUri} else {})
    ensures forall k :: k in current && k != BaseUri && k != Timeout ==> c[k] == current[k]
  {
    var withBase := if DevelMode(settings) then current[BaseUri := Field(settings, "akamai_mock_endpoint")] else current;
    withBase[Timeout := Field(settings, "akamai_timeout")]
  }

  class AkamaiClient {
    /** The 'akamai.settings' values the client reads. */
    const settings: Record
    /** The config handed to the EdgeGrid client. */
    var akamaiClientConfig: Record

    /** Starts from an empty config and fills it in once. */
    constructor (settings: Record)
      ensures this.settings == settings
      ensures akamaiClientConfig == ClientConfig(map[], settings)
    {
      this.settings := settings;
      akamaiClientConfig := map[];
      new;
      var config := CreateClientConfig();
    }

    /** Writes the base URI (development mode only) and the timeout into the
        stored config and returns the stored config. */
    method CreateClientConfig() returns (r: Record)
      modifies this
      ensures akamaiClientConfig == ClientConfig(old(akamaiClientConfig), settings)
      ensures r == akamaiClientConfig
    {
      if Truthy(Field(settings, "akamai_devel_mode")) {
        akamaiClientConfig := akamaiClientConfig[BaseUri := Field(settings, "akamai_mock_endpoint")];
      }
      akamaiClientConfig := akamaiClientConfig[Timeout := Field(settings, "akamai_timeout")];
      return akamaiClientConfig;
    }
  }

  /** Rebuilding the config with unchanged settings changes nothing: both keys
      are overwritten, never appended. */
  lemma ClientConfigIdempotent(current: Record, settings: Record)
    ensures ClientConfig(ClientConfig(current, settings), settings) == ClientConfig(current, settings)
  {
  }

  /** The config a new client holds has only the two keys, and a base URI
      exactly in development mode, where it is the endpoint the content-control
      client posts to; outside it there is no base URI and purges go to the
      live REST endpoint. */
  lemma FreshClientConfig(settings: Record)
    ensures ClientConfig(map[], settings).Keys <= {BaseUri, Timeout}
    ensures BaseUri in ClientConfig(map[], settings) <==> DevelMode(settings)
    ensures DevelMode(settings) ==>
      ClientConfig(map[], settings)[BaseUri] == AkamaiContentControlClient.Endpoint(settings)
    ensures !DevelMode(settings) ==>
      AkamaiContentControlClient.Endpoint(settings) == Field(settings, "akamai_restapi_endpoint")
  {
  }
}
