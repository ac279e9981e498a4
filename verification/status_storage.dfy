/**
 * The purge-status store: a table from purge id to the ordered history of
 * status snapshots received for that purge. Every save stamps the snapshot
 * with the request time and appends it under its own purge id; lookup gives
 * the whole history or FALSE; delete drops one id.
 */
module StatusStorage {
  import opened Php

  /** A PHP array key: string keys and integer keys are distinct. */
  datatype Key = KStr(s: string) | KInt(i: int)

  /** The key PHP uses for `$statuses[$v]`: NULL becomes "", booleans become
      0 and 1; a list is an illegal offset and nothing is stored. */
  function ArrayKey(v: Value): Option<Key> {
    match v
    case Null => Some(KStr(""))
    case Bool(b) => Some(KInt(if b then 1 else 0))
    case Int(i) => Some(KInt(i))
    case Str(s) => Some(KStr(s))
    case List(_) => None
  }

  /** The whole stored state: purge id to chronological snapshots. */
  type Table = map<Key, seq<Record>>

  const RequestMadeAt := "request_made_at"
  const UrlsQueued := "urls_queued"
  const PurgeId := "purgeId"

  /** The stored copy of a status: the snapshot with the request time added. */
  function Stamped(status: Record, now: int): (r: Record)
    ensures Field(r, RequestMadeAt) == Int(now)
    ensures r.Keys == status.Keys + {RequestMadeAt}
    ensures forall f :: f != RequestMadeAt ==> Field(r, f) == Field(status, f)
  {
    status[RequestMadeAt := Int(now)]
  }

  /** The history under `k`; `$statuses[$k][] = ...` starts from an empty list. */
  function History(t: Table, k: Key): seq<Record> {
    if k in t then t[k] else []
  }

  /** The table after `save($status)` at request time `now`. */
  function Saved(t: Table, status: Record, now: int): Table {
    match ArrayKey(Field(status, PurgeId))
    case None => t
    case Some(k) => t[k := History(t, k) + [Stamped(status, now)]]
  }

  /** `get($id)`: the history when `id` is a key, FALSE (None) otherwise. */
  function TableLookup(t: Table, id: Key): Option<seq<Record>> {
    if id in t then Some(t[id]) else None
  }

  /** The table after `unset($statuses[$id])`. */
  function Deleted(t: Table, id: Key): Table {
    t - {id}
  }

  /** The snapshot `saveResponseStatus` hands to `save`: the decoded body with
      the queued URL list attached. */
  function ResponseStatus(body: Record, queuedUrls: seq<string>): (r: Record)
    ensures Field(r, UrlsQueued) == List(queuedUrls)
    ensures forall f :: f != UrlsQueued ==> Field(r, f) == Field(body, f)
  {
    body[UrlsQueued := List(queuedUrls)]
  }

  class StatusStorage {
    /** The state entry 'akamai.purge_status' (an unset entry reads as empty). */
    var statuses: Table

    constructor ()
      ensures statuses == map[]
    {
      statuses := map[];
    }

    /** Keeps a successful CCU response, with the URLs it enqueued. */
    method SaveResponseStatus(body: Record, queuedUrls: seq<string>, now: int)
      modifies this
      ensures statuses == Saved(old(statuses), ResponseStatus(body, queuedUrls), now)
    {
      var responseBody := body[UrlsQueued := List(queuedUrls)];
      Save(responseBody, now);
    }

    /** Stamps `status` and appends it to the history of its purge id. */
    method Save(status: Record, now: int)
      modifies this
      ensures statuses == Saved(old(statuses), status, now)
    {
      var current := statuses;
      var stamped := status[RequestMadeAt := Int(now)];
      var key := ArrayKey(Field(stamped, PurgeId));
      if key.Some? {
        var k := key.value;
        var list := if k in current then current[k] else [];
        current := current[k := list + [stamped]];
      }
      statuses := current;
    }

    method Get(id: Key) returns (r: Option<seq<Record>>)
      ensures r.Some? <==> id in statuses
      ensures r.Some? ==> r.value == statuses[id]
    {
      if id in statuses {
        r := Some(statuses[id]);
      } else {
        r := None;
      }
    }

    method Delete(id: Key)
      modifies this
      ensures statuses == Deleted(old(statuses), id)
    {
      var current := statuses;
      current := current - {id};
      statuses := current;
    }
  }

  /** A save appends exactly one snapshot, the stamped status, at the end of the
      history of its own purge id, and keeps every earlier entry. */
  lemma SaveAppends(t: Table, status: Record, now: int, k: Key)
    requires ArrayKey(Field(status, PurgeId)) == Some(k)
    ensures TableLookup(Saved(t, status, now), k) == Some(History(t, k) + [Stamped(status, now)])
    ensures var h := TableLookup(Saved(t, status, now), k).value;
      |h| == |History(t, k)| + 1 && h[..|h| - 1] == History(t, k) &&
      Field(h[|h| - 1], RequestMadeAt) == Int(now)
  {
  }

  /** A save changes only the history of its own purge id. */
  lemma SaveKeepsOthers(t: Table, status: Record, now: int, other: Key)
    requires ArrayKey(Field(status, PurgeId)) != Some(other)
    ensures TableLookup(Saved(t, status, now), other) == TableLookup(t, other)
  {
  }

  /** A status whose purge id is a list is not stored at all. */
  lemma SaveIllegalIdIsIgnored(t: Table, status: Record, now: int)
    requires Field(status, PurgeId).List?
    ensures Saved(t, status, now) == t
  {
  }

  /** The table after saving `statuses` one after another, `statuses[i]` in a
      request made at `times[i]`. */
  function SavedAll(t: Table, statuses: seq<Record>, times: seq<int>): Table
    requires |times| == |statuses|
    decreases |statuses|
  {
    if statuses == [] then t else SavedAll(Saved(t, statuses[0], times[0]), statuses[1..], times[1..])
  }

  /** Each status stamped with the time of its own request. */
  function StampedAll(statuses: seq<Record>, times: seq<int>): (r: seq<Record>)
    requires |times| == |statuses|
    ensures |r| == |statuses|
  {
    if statuses == [] then [] else [Stamped(statuses[0], times[0])] + StampedAll(statuses[1..], times[1..])
  }

  /** Saves accumulate instead of overwriting: saving several statuses with one
      purge id, each in its own request or several in one, appends all of them
      to that id's history in order, each stamped with its request time. */
  lemma {:induction false} SavesAccumulate(t: Table, statuses: seq<Record>, times: seq<int>, k: Key)
    requires |times| == |statuses|
    requires forall i :: 0 <= i < |statuses| ==> ArrayKey(Field(statuses[i], PurgeId)) == Some(k)
    ensures TableLookup(SavedAll(t, statuses, times), k) ==
      if statuses == [] then TableLookup(t, k) else Some(History(t, k) + StampedAll(statuses, times))
    decreases |statuses|
  {
    if statuses != [] {
      var first, rest := statuses[0], statuses[1..];
      var t' := Saved(t, first, times[0]);
      SaveAppends(t, first, times[0], k);
      assert forall i :: 0 <= i < |rest| ==> ArrayKey(Field(rest[i], PurgeId)) == Some(k) by {
        forall i | 0 <= i < |rest| ensures ArrayKey(Field(rest[i], PurgeId)) == Some(k) {
          assert rest[i] == statuses[i + 1];
        }
      }
      SavesAccumulate(t', rest, times[1..], k);
      assert SavedAll(t, statuses, times) == SavedAll(t', rest, times[1..]);
      StampedAllCons(statuses, times);
      var h := History(t, k) + [Stamped(first, times[0])];
      assert TableLookup(t', k) == Some(h);
      if rest == [] {
        assert StampedAll(rest, times[1..]) == [];
        assert h == History(t, k) + StampedAll(statuses, times);
      } else {
        assert History(t', k) == h;
        assert h + StampedAll(rest, times[1..]) == History(t, k) + StampedAll(statuses, times);
      }
    }
  }

  lemma StampedAllCons(statuses: seq<Record>, times: seq<int>)
    requires |times| == |statuses| && statuses != []
    ensures StampedAll(statuses, times) == [Stamped(statuses[0], times[0])] + StampedAll(statuses[1..], times[1..])
  {
  }

  /** Saving the same status three times in one request under a fresh purge id
      gives a three-element history. */
  lemma ThreeSavesCollate(t: Table, status: Record, now: int, k: Key)
    requires ArrayKey(Field(status, PurgeId)) == Some(k) && k !in t
    ensures TableLookup(SavedAll(t, [status, status, status], [now, now, now]), k).Some?
    ensures |TableLookup(SavedAll(t, [status, status, status], [now, now, now]), k).value| == 3
  {
    SavesAccumulate(t, [status, status, status], [now, now, now], k);
  }

  /** `delete($id)` removes exactly that id: a later lookup of it is FALSE,
      every other id keeps its history, and deleting an absent id is a no-op. */
  lemma DeleteRemovesOnly(t: Table, id: Key)
    ensures TableLookup(Deleted(t, id), id) == None
    ensures forall k :: k != id ==> TableLookup(Deleted(t, id), k) == TableLookup(t, k)
    ensures id !in t ==> Deleted(t, id) == t
  {
  }
}
