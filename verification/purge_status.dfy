/**
 * The summary of one purge, read from its stored history of status
 * snapshots: the URLs of every request, and the id, support id, HTTP code,
 * check time and description of the most recent one.
 */
module PurgeStatus {
  import opened Php
  import StatusStorage

  /** The URLs a snapshot lists under 'urls_queued'; a snapshot without the key,
      or whose value is not a list (a foreach over it runs no iteration), adds none. */
  function QueuedUrls(request: Record): seq<string> {
    if StatusStorage.UrlsQueued in request then
      match request[StatusStorage.UrlsQueued]
      case List(urls) => urls
      case _ => []
    else []
  }

  /** All queued URLs of a history, request by request, in order. */
  function CollatedUrls(requests: seq<Record>): seq<string> {
    if requests == [] then []
    else CollatedUrls(requests[..|requests| - 1]) + QueuedUrls(requests[|requests| - 1])
  }

  /** `array_pop` of a copy of the history: the last snapshot, NULL for an empty one. */
  function MostRecent(requests: seq<Record>): (r: Option<Record>)
    ensures r.None? <==> requests == []
    ensures r.Some? ==> r.value == requests[|requests| - 1]
  {
    if requests == [] then None else Some(requests[|requests| - 1])
  }

  /** `$most_recent_request[$k]`: NULL when there is no snapshot or no such key. */
  function LatestField(requests: seq<Record>, k: string): Value {
    match MostRecent(requests)
    case None => Null
    case Some(last) => Field(last, k)
  }

  /** The description: a 'purges' status check answers with 'purgeStatus', a
      'purge' submission with 'detail'; without either it stays NULL. */
  function Description(requests: seq<Record>): (d: Value)
    ensures MostRecent(requests).Some? && "purgeStatus" in MostRecent(requests).value ==>
      d == MostRecent(requests).value["purgeStatus"]
    ensures MostRecent(requests).Some? && "purgeStatus" !in MostRecent(requests).value ==>
      d == LatestField(requests, "detail")
    ensures requests == [] ==> d == Null
  {
    match MostRecent(requests)
    case None => Null
    case Some(last) =>
      if "purgeStatus" in last then last["purgeStatus"]
      else if "detail" in last then last["detail"]
      else Null
  }

  /** `$description == 'Done'` with PHP 7's loose comparison: a string must be
      exactly "Done" (it is not numeric), TRUE equals every truthy string,
      an integer is compared with the string's numeric value 0, NULL is
      compared as "", and an array never equals a string. */
  predicate IsDone(description: Value) {
    match description
    case Str(s) => s == "Done"
    case Bool(b) => b
    case Int(i) => i == 0
    case _ => false
  }

  /** The nested loop of the constructor: every queued URL of every request. */
  method CollateUrls(requests: seq<Record>) returns (urls: seq<string>)
    ensures urls == CollatedUrls(requests)
  {
    urls := [];
    var i := 0;
    while i < |requests|
      invariant 0 <= i <= |requests|
      invariant urls == CollatedUrls(requests[..i])
    {
      var request := requests[i];
      if StatusStorage.UrlsQueued in request && request[StatusStorage.UrlsQueued].List? {
        var queued := request[StatusStorage.UrlsQueued].items;
        var j := 0;
        while j < |queued|
          invariant 0 <= j <= |queued|
          invariant urls == CollatedUrls(requests[..i]) + queued[..j]
        {
          urls := urls + [queued[j]];
          j := j + 1;
        }
        assert queued[..j] == queued;
      }
      assert requests[..i + 1][..i] == requests[..i];
      i := i + 1;
    }
    assert requests[..i] == requests;
  }

  class PurgeStatus {
    const statusRequests: seq<Record>
    const urls: seq<string>
    const lastCheckedTime: Value
    const purgeId: Value
    const supportId: Value
    const httpCode: Value
    const description: Value

    /** Every summary field is derived from the kept history. */
    ghost predicate Valid() {
      && urls == CollatedUrls(statusRequests)
      && lastCheckedTime == LatestField(statusRequests, StatusStorage.RequestMadeAt)
      && purgeId == LatestField(statusRequests, StatusStorage.PurgeId)
      && supportId == LatestField(statusRequests, "supportId")
      && httpCode == LatestField(statusRequests, "httpStatus")
      && description == Description(statusRequests)
    }

    /** Keeps the whole history; `array_pop` acts on a local copy only. */
    constructor (requests: seq<Record>)
      ensures statusRequests == requests
      ensures Valid()
    {
      statusRequests := requests;
      var collated := CollateUrls(requests);
      urls := collated;
      var mostRecent := MostRecent(requests);
      var last := if mostRecent.Some? then mostRecent.value else map[];
      lastCheckedTime := Field(last, StatusStorage.RequestMadeAt);
      purgeId := Field(last, StatusStorage.PurgeId);
      supportId := Field(last, "supportId");
      httpCode := Field(last, "httpStatus");
      description :=
        if "purgeStatus" in last then last["purgeStatus"]
        else if "detail" in last then last["detail"]
        else Null;
    }

    /** The purge id of the latest snapshot, NULL for an empty history. */
    function GetPurgeId(): (r: Value)
      requires Valid()
      ensures statusRequests == [] ==> r == Null
      ensures statusRequests != [] ==> r == Field(statusRequests[|statusRequests| - 1], StatusStorage.PurgeId)
    {
      purgeId
    }

    /** When the latest snapshot's request was made. */
    function GetLastCheckedTime(): (r: Value)
      requires Valid()
      ensures statusRequests == [] ==> r == Null
      ensures statusRequests != [] ==> r == Field(statusRequests[|statusRequests| - 1], StatusStorage.RequestMadeAt)
    {
      lastCheckedTime
    }

    /** Every URL queued by any request of the purge, in order. */
    function GetUrls(): (r: seq<string>)
      requires Valid()
      ensures forall u :: u in r <==> exists i :: 0 <= i < |statusRequests| && u in QueuedUrls(statusRequests[i])
    {
      CollatedUrlsMembers(statusRequests);
      urls
    }

    /** The support id of the latest snapshot, NULL for an empty history. */
    function GetSupportId(): (r: Value)
      requires Valid()
      ensures statusRequests == [] ==> r == Null
      ensures statusRequests != [] ==> r == Field(statusRequests[|statusRequests| - 1], "supportId")
    {
      supportId
    }

    /** The latest snapshot's 'purgeStatus', else its 'detail', else NULL. */
    function GetDescription(): (r: Value)
      requires Valid()
      ensures r == Description(statusRequests)
    {
      description
    }

    /** The HTTP status of the latest snapshot, NULL for an empty history. */
    function GetHttpCode(): (r: Value)
      requires Valid()
      ensures statusRequests == [] ==> r == Null
      ensures statusRequests != [] ==> r == Field(statusRequests[|statusRequests| - 1], "httpStatus")
    {
      httpCode
    }

    /** A purge is complete when its description says 'Done'. */
    function IsComplete(): (r: bool)
      requires Valid()
      ensures r <==> description == Str("Done") || description == Bool(true) || description == Int(0)
    {
      IsDone(GetDescription())
    }

    /** `array_slice($statusRequests, -1)[0]`: the last request kept, NULL when none. */
    function GetMostRecentRequest(): (r: Option<Record>)
      ensures statusRequests != [] ==> r == Some(statusRequests[|statusRequests| - 1])
      ensures statusRequests == [] ==> r == None
    {
      if statusRequests == [] then None else Some(statusRequests[|statusRequests| - 1])
    }
  }

  /** Collation distributes over histories: the URLs of `a + b` are those of
      `a` followed by those of `b`. */
  lemma {:induction false} CollatedUrlsAppend(a: seq<Record>, b: seq<Record>)
    ensures CollatedUrls(a + b) == CollatedUrls(a) + CollatedUrls(b)
    decreases |b|
  {
    if b != [] {
      var b' := b[..|b| - 1];
      assert (a + b)[..|a + b| - 1] == a + b';
      assert (a + b)[|a + b| - 1] == b[|b| - 1];
      CollatedUrlsAppend(a, b');
    } else {
      assert a + b == a;
    }
  }

  /** A URL is collated exactly when some request of the history queued it. */
  lemma {:induction false} CollatedUrlsMembers(requests: seq<Record>)
    ensures forall u :: u in CollatedUrls(requests) <==>
      exists i :: 0 <= i < |requests| && u in QueuedUrls(requests[i])
    decreases |requests|
  {
    if requests != [] {
      var init := requests[..|requests| - 1];
      CollatedUrlsMembers(init);
      forall u ensures u in CollatedUrls(requests) <==>
        exists i :: 0 <= i < |requests| && u in QueuedUrls(requests[i])
      {
        assert CollatedUrls(requests) == CollatedUrls(init) + QueuedUrls(requests[|requests| - 1]);
        if u in CollatedUrls(requests) && u !in QueuedUrls(requests[|requests| - 1]) {
          assert u in CollatedUrls(init);
          var i :| 0 <= i < |init| && u in QueuedUrls(init[i]);
          assert requests[i] == init[i];
        }
        if exists i :: 0 <= i < |requests| && u in QueuedUrls(requests[i]) {
          var i :| 0 <= i < |requests| && u in QueuedUrls(requests[i]);
          if i < |init| {
            assert init[i] == requests[i];
          }
        }
      }
    }
  }

  /** Each request contributes exactly its own queued URLs; a history of
      requests without 'urls_queued' lists no URL at all. */
  lemma {:induction false} CollatedUrlsWithoutQueues(requests: seq<Record>)
    requires forall i :: 0 <= i < |requests| ==> StatusStorage.UrlsQueued !in requests[i]
    ensures CollatedUrls(requests) == []
    decreases |requests|
  {
    if requests != [] {
      CollatedUrlsWithoutQueues(requests[..|requests| - 1]);
    }
  }

  /** The summary fields and the most recent request come from the same
      snapshot, the last of the kept history. */
  lemma SummaryReadsMostRecent(p: PurgeStatus)
    requires p.Valid() && p.statusRequests != []
    ensures p.GetMostRecentRequest().Some?
    ensures var last := p.GetMostRecentRequest().value;
      p.GetPurgeId() == Field(last, StatusStorage.PurgeId) &&
      p.GetSupportId() == Field(last, "supportId") &&
      p.GetHttpCode() == Field(last, "httpStatus") &&
      p.GetLastCheckedTime() == Field(last, StatusStorage.RequestMadeAt)
  {
  }

  /** What a summary shows right after `saveResponseStatus`: its URL list ends
      with the URLs just queued, the check time is the request time, the id is
      the response's, and the description is the response's own. */
  lemma SummaryAfterSaveResponse(t: StatusStorage.Table, body: Record, queued: seq<string>, now: int, k: StatusStorage.Key)
    requires StatusStorage.ArrayKey(Field(body, StatusStorage.PurgeId)) == Some(k)
    ensures var h := StatusStorage.Saved(t, StatusStorage.ResponseStatus(body, queued), now);
      k in h &&
      CollatedUrls(h[k]) == CollatedUrls(StatusStorage.History(t, k)) + queued &&
      LatestField(h[k], StatusStorage.RequestMadeAt) == Int(now) &&
      LatestField(h[k], StatusStorage.PurgeId) == Field(body, StatusStorage.PurgeId) &&
      Description(h[k]) == Description([body])
  {
    var status := StatusStorage.ResponseStatus(body, queued);
    assert Field(status, StatusStorage.PurgeId) == Field(body, StatusStorage.PurgeId);
    var stamped := StatusStorage.Stamped(status, now);
    var h := StatusStorage.Saved(t, status, now);
    assert h[k] == StatusStorage.History(t, k) + [stamped];
    HistoryEndingWith(StatusStorage.History(t, k), stamped);
    StampedResponseSummary(body, queued, now);
  }

  /** A history's summary after appending one snapshot reads that snapshot. */
  lemma HistoryEndingWith(prefix: seq<Record>, last: Record)
    ensures CollatedUrls(prefix + [last]) == CollatedUrls(prefix) + QueuedUrls(last)
    ensures forall f :: LatestField(prefix + [last], f) == Field(last, f)
    ensures Description(prefix + [last]) == Description([last])
  {
    assert (prefix + [last])[..|prefix|] == prefix;
  }

  /** The stored copy of a response queues exactly the given URLs and has the
      response's own description. */
  lemma StampedResponseSummary(body: Record, queued: seq<string>, now: int)
    ensures var stamped := StatusStorage.Stamped(StatusStorage.ResponseStatus(body, queued), now);
      QueuedUrls(stamped) == queued &&
      Field(stamped, StatusStorage.RequestMadeAt) == Int(now) &&
      Description([stamped]) == Description([body])
  {
    var stamped := StatusStorage.Stamped(StatusStorage.ResponseStatus(body, queued), now);
    assert ("purgeStatus" in stamped) == ("purgeStatus" in body);
    assert ("detail" in stamped) == ("detail" in body);
  }

  /** A purge counts as complete exactly when its latest snapshot reports
      'Done' in 'purgeStatus', or has no 'purgeStatus' and reports it in 'detail'. */
  lemma CompleteIffLatestDone(requests: seq<Record>)
    requires requests != []
    ensures var last := requests[|requests| - 1];
      IsDone(Description(requests)) <==>
        if "purgeStatus" in last then IsDone(last["purgeStatus"])
        else IsDone(Field(last, "detail"))
  {
  }
}
