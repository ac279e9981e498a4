/**
 * The older, unkeyed purge-status log: every successful response is appended
 * to one flat list, stamped with the request time and the URLs it queued.
 */
module StatusLog {
  import opened Php
  import StatusStorage

  /** The list held in state; NULL before the first save reads as empty. */
  function Entries(stored: Option<seq<Record>>): seq<Record> {
    match stored
    case None => []
    case Some(entries) => entries
  }

  /** The entry a response becomes: its decoded body, then the request time,
      then the queued URLs. */
  function LogEntry(body: Record, queuedUrls: seq<string>, now: int): (e: Record)
    ensures Field(e, StatusStorage.RequestMadeAt) == Int(now)
    ensures Field(e, StatusStorage.UrlsQueued) == List(queuedUrls)
    ensures e.Keys == body.Keys + {StatusStorage.RequestMadeAt, StatusStorage.UrlsQueued}
    ensures forall f :: f != StatusStorage.RequestMadeAt && f != StatusStorage.UrlsQueued ==>
      Field(e, f) == Field(body, f)
  {
    body[StatusStorage.RequestMadeAt := Int(now)][StatusStorage.UrlsQueued := List(queuedUrls)]
  }

  class StatusLog {
    /** The state entry 'akamai.purge_status'; None until the first save. */
    var stored: Option<seq<Record>>

    constructor ()
      ensures stored == None
    {
      stored := None;
    }

    /** Appends one entry for a successful CCU response. */
    method SaveResponseStatus(body: Record, queuedUrls: seq<string>, now: int)
      modifies this
      ensures stored == Some(Entries(old(stored)) + [LogEntry(body, queuedUrls, now)])
    {
      var statuses := Entries(stored);
      var responseBody := body[StatusStorage.RequestMadeAt := Int(now)];
      responseBody := responseBody[StatusStorage.UrlsQueued := List(queuedUrls)];
      statuses := statuses + [responseBody];
      stored := Some(statuses);
    }

    /** The stored list, NULL (None) before anything was saved. */
    function GetResponseStatuses(): (r: Option<seq<Record>>)
      reads this
      ensures r == stored
    {
      stored
    }
  }

  /** The log after appending the responses `bodies`, each with its queued URLs,
      `bodies[i]` logged in a request made at `times[i]`. */
  function Appended(entries: seq<Record>, bodies: seq<Record>, queued: seq<seq<string>>, times: seq<int>): seq<Record>
    requires |queued| == |bodies| && |times| == |bodies|
    decreases |bodies|
  {
    if bodies == [] then entries
    else Appended(entries + [LogEntry(bodies[0], queued[0], times[0])], bodies[1..], queued[1..], times[1..])
  }

  /** The log is unkeyed and append-only: after n saves, in one request or
      across several, it holds n more entries, earlier entries keep their
      place, and entry i is the i-th response as logged at its own request
      time, whatever purge ids the responses carry. */
  lemma {:induction false} AppendedGrows(entries: seq<Record>, bodies: seq<Record>, queued: seq<seq<string>>, times: seq<int>)
    requires |queued| == |bodies| && |times| == |bodies|
    ensures var r := Appended(entries, bodies, queued, times);
      |r| == |entries| + |bodies| &&
      r[..|entries|] == entries &&
      forall i :: 0 <= i < |bodies| ==> r[|entries| + i] == LogEntry(bodies[i], queued[i], times[i])
    decreases |bodies|
  {
    if bodies != [] {
      var entries' := entries + [LogEntry(bodies[0], queued[0], times[0])];
      AppendedGrows(entries', bodies[1..], queued[1..], times[1..]);
      var r := Appended(entries, bodies, queued, times);
      assert r == Appended(entries', bodies[1..], queued[1..], times[1..]);
      assert r[..|entries|] == r[..|entries'|][..|entries|];
      forall i | 0 <= i < |bodies|
        ensures r[|entries| + i] == LogEntry(bodies[i], queued[i], times[i])
      {
        if i > 0 {
          assert r[|entries'| + (i - 1)] == LogEntry(bodies[1..][i - 1], queued[1..][i - 1], times[1..][i - 1]);
        } else {
          assert r[..|entries'|][|entries|] == entries'[|entries|];
        }
      }
    }
  }

  /** Two responses with the same purge id, logged in one request, stay two
      separate entries. */
  lemma SamePurgeIdTwoEntries(entries: seq<Record>, body: Record, urls1: seq<string>, urls2: seq<string>, now: int)
    ensures |Appended(entries, [body, body], [urls1, urls2], [now, now])| == |entries| + 2
  {
    AppendedGrows(entries, [body, body], [urls1, urls2], [now, now]);
  }
}
