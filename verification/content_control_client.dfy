/**
 * The CCU v2 content-control client: clearing a URL builds an ARL 'remove'
 * purge for that one URL on the configured domain, picks the mock or the
 * live endpoint, and sends it; a failed send is reported, never rethrown.
 */
module AkamaiContentControlClient {
  import opened Php

  /** A PSR-7 request as `new Request($method, $uri, $headers = [], $body = NULL)`
      builds it; `body == None` is the empty body, `Some(p)` the encoding of `p`. */
  datatype Request = Request(verb: string, uri: Value, headers: Record, body: Option<Record>)

  /** What the HTTP client's `send` did: answered, or threw a RequestException. */
  datatype SendOutcome = Responded | RequestException

  /** The purge parameters: an ARL purge, action 'remove', the configured
      domain, and the one URL as the only object. */
  function PurgeParameters(settings: Record, url: string): Record {
    map[
      "type" := Str("arl"),
      "action" := Str("remove"),
      "domain" := Field(settings, "akamai_domain"),
      "objects" := List([url])
    ]
  }

  /** The mock endpoint in development mode, the live REST endpoint otherwise. */
  function Endpoint(settings: Record): Value {
    if Truthy(Field(settings, "akamai_devel_mode")) then Field(settings, "akamai_mock_endpoint")
    else Field(settings, "akamai_restapi_endpoint")
  }

  /** A CCU v2 purge body: exactly the four fields, a known type, action and
      domain, and a non-empty list of objects. */
  predicate IsPurgeBody(p: Record) {
    && p.Keys == {"type", "action", "domain", "objects"}
    && (p["type"] == Str("arl") || p["type"] == Str("cpcode"))
    && (p["action"] == Str("remove") || p["action"] == Str("invalidate"))
    && (p["domain"] == Str("production") || p["domain"] == Str("staging"))
    && p["objects"].List? && p["objects"].items != []
  }

  /** The parameters are a purge body of the given URL alone, with type 'arl'
      and action 'remove', exactly when the configured domain is one of the two
      Akamai networks. */
  lemma PurgeParametersShape(settings: Record, url: string)
    ensures var p := PurgeParameters(settings, url);
      p["type"] == Str("arl") && p["action"] == Str("remove") &&
      p["domain"] == Field(settings, "akamai_domain") && p["objects"] == List([url]) &&
      (IsPurgeBody(p) <==>
        Field(settings, "akamai_domain") == Str("production") ||
        Field(settings, "akamai_domain") == Str("staging"))
  {
  }

  /** The endpoint follows the development-mode flag: the mock endpoint when
      the flag is truthy, the live REST endpoint when it is unset or falsy. */
  lemma EndpointFollowsDevelMode(settings: Record)
    ensures Truthy(Field(settings, "akamai_devel_mode")) ==>
      Endpoint(settings) == Field(settings, "akamai_mock_endpoint")
    ensures !Truthy(Field(settings, "akamai_devel_mode")) ==>
      Endpoint(settings) == Field(settings, "akamai_restapi_endpoint")
    ensures "akamai_devel_mode" !in settings ==>
      Endpoint(settings) == Field(settings, "akamai_restapi_endpoint")
  {
  }

  /** The request `new Request('POST', $endpoint, $parameters)` builds: the
      parameters are passed in the third position, which is the header list,
      and the body is left empty. */
  function PurgeRequestAsWritten(settings: Record, url: string): (r: Request)
    ensures r.verb == "POST" && r.uri == Endpoint(settings)
    ensures r.body.None?
    ensures "objects" in r.headers && r.headers["objects"] == List([url])
    ensures r.headers.Keys == {"type", "action", "domain", "objects"}
  {
    Request("POST", Endpoint(settings), PurgeParameters(settings, url), None)
  }

  /** The request as written differs from the intended one on every input:
      what should be the purge body travels as headers, and no purge request
      ever carries a body, so the URL never reaches the CCU service as one. */
  lemma AsWrittenSendsNoPurgeBody(settings: Record, url: string)
    ensures PurgeRequestAsWritten(settings, url) != PurgeRequest(settings, url)
    ensures PurgeRequestAsWritten(settings, url).headers == PurgeRequest(settings, url).body.value
    ensures PurgeRequestAsWritten(settings, url).body.None? && PurgeRequest(settings, url).body.Some?
  {
  }

  /** The request with the parameters as its body, as the CCU API expects. */
  function PurgeRequest(settings: Record, url: string): (r: Request)
    ensures r.verb == "POST" && r.uri == Endpoint(settings)
    ensures r.body.Some? && "objects" in r.body.value && r.body.value["objects"] == List([url])
    ensures IsPurgeBody(r.body.value) <==>
      Field(settings, "akamai_domain") == Str("production") ||
      Field(settings, "akamai_domain") == Str("staging")
  {
    Request("POST", Endpoint(settings), map[], Some(PurgeParameters(settings, url)))
  }

  class AkamaiContentControlClient {
    /** The 'akamai.settings' config object. */
    const settings: Record
    /** The requests handed to the HTTP client, in order. */
    var sent: seq<Request>
    /** The requests whose sending failed and was reported to the user. */
    var reported: seq<Request>

    constructor (settings: Record)
      ensures this.settings == settings && sent == [] && reported == []
    {
      this.settings := settings;
      sent := [];
      reported := [];
    }

    /** Clearing a URL is exactly one purge of that URL. */
    method ClearUrl(url: string, outcome: SendOutcome)
      modifies this
      ensures sent == old(sent) + [PurgeRequestAsWritten(settings, url)]
      ensures reported == old(reported) +
        (if outcome == RequestException then [PurgeRequestAsWritten(settings, url)] else [])
    {
      PurgeUrl(url, outcome);
    }

    /** Sends one purge request, built as the module builds it; a
        RequestException is caught and reported, and the call returns
        normally either way. */
    method PurgeUrl(url: string, outcome: SendOutcome)
      modifies this
      ensures sent == old(sent) + [PurgeRequestAsWritten(settings, url)]
      ensures reported == old(reported) +
        (if outcome == RequestException then [PurgeRequestAsWritten(settings, url)] else [])
    {
      var parameters := PurgeParameters(settings, url);
      var endpoint := if Truthy(Field(settings, "akamai_devel_mode")) then Field(settings, "akamai_mock_endpoint")
        else Field(settings, "akamai_restapi_endpoint");
      var request := Request("POST", endpoint, parameters, None);
      sent := sent + [request];
      if outcome == RequestException {
        reported := reported + [request];
        return;
      }
    }

    /** `clearUrl` called on each path in turn, as the cache-control form's
        submit handler does; `outcomes[i]` is how sending the i-th purge went.
        Every URL is purged, in order, and only the failed sends are reported. */
    method ClearUrls(urls: seq<string>, outcomes: seq<SendOutcome>)
      requires |outcomes| == |urls|
      modifies this
      ensures sent == old(sent) + AsWrittenRequests(settings, urls)
      ensures reported == old(reported) + FailedRequests(settings, urls, outcomes)
    {
      var i := 0;
      while i < |urls|
        invariant 0 <= i <= |urls|
        invariant sent == old(sent) + AsWrittenRequests(settings, urls[..i])
        invariant reported == old(reported) + FailedRequests(settings, urls[..i], outcomes[..i])
      {
        ClearUrl(urls[i], outcomes[i]);
        ClearingOneMore(settings, urls, outcomes, i);
        i := i + 1;
      }
      assert urls[..|urls|] == urls && outcomes[..|outcomes|] == outcomes;
    }
  }

  /** Every request a client has sent is a well-formed POST to the endpoint
      its settings select, and each one lacks a body: the purge never arrives
      as the CCU service expects it. */
  predicate SentAsWritten(settings: Record, sent: seq<Request>) {
    forall i :: 0 <= i < |sent| ==>
      sent[i].verb == "POST" && sent[i].uri == Endpoint(settings) && sent[i].body.None?
  }

  /** Clearing the URLs `urls` one after another sends one request per URL, in
      order, none of which carries a body. */
  lemma {:induction false} ClearedUrlsSendNoBody(settings: Record, urls: seq<string>)
    ensures |AsWrittenRequests(settings, urls)| == |urls|
    ensures forall i :: 0 <= i < |urls| ==>
      AsWrittenRequests(settings, urls)[i] == PurgeRequestAsWritten(settings, urls[i])
    ensures SentAsWritten(settings, AsWrittenRequests(settings, urls))
    decreases |urls|
  {
    if urls != [] {
      ClearedUrlsSendNoBody(settings, urls[..|urls| - 1]);
    }
  }

  /** The requests sent by clearing `urls` in turn. */
  function AsWrittenRequests(settings: Record, urls: seq<string>): seq<Request> {
    if urls == [] then []
    else AsWrittenRequests(settings, urls[..|urls| - 1]) + [PurgeRequestAsWritten(settings, urls[|urls| - 1])]
  }

  /** The requests reported as failed when clearing `urls` in turn with the
      send outcomes `outcomes`. */
  function FailedRequests(settings: Record, urls: seq<string>, outcomes: seq<SendOutcome>): seq<Request>
    requires |outcomes| == |urls|
  {
    if urls == [] then []
    else
      var last := if outcomes[|outcomes| - 1] == RequestException then [PurgeRequestAsWritten(settings, urls[|urls| - 1])] else [];
      FailedRequests(settings, urls[..|urls| - 1], outcomes[..|outcomes| - 1]) + last
  }

  /** Clearing one more URL extends both lists by that URL's request. */
  lemma ClearingOneMore(settings: Record, urls: seq<string>, outcomes: seq<SendOutcome>, i: nat)
    requires |outcomes| == |urls| && i < |urls|
    ensures AsWrittenRequests(settings, urls[..i + 1]) ==
      AsWrittenRequests(settings, urls[..i]) + [PurgeRequestAsWritten(settings, urls[i])]
    ensures FailedRequests(settings, urls[..i + 1], outcomes[..i + 1]) ==
      FailedRequests(settings, urls[..i], outcomes[..i]) +
      (if outcomes[i] == RequestException then [PurgeRequestAsWritten(settings, urls[i])] else [])
  {
    assert urls[..i + 1][..i] == urls[..i] && outcomes[..i + 1][..i] == outcomes[..i];
  }
}
