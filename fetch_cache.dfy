/** The single-slot daily cache in front of the picture-of-the-day endpoint.
    The slot holds the date the upstream record reported and the record; a
    fetch is served from it only when that date is the caller's local date
    and the cached record is a non-empty object. */
module FetchCache {
  import opened Wrappers
  import opened ApodRecord

  datatype Slot = Slot(date: Option<string>, data: Option<Record>)

  /** The slot at process start: `{'date': None, 'data': None}`. */
  const Empty := Slot(None, None)

  /** What the one HTTP request would yield: any transport, status or JSON
      error, or a decoded record. */
  datatype Upstream = RequestFailed | Responded(record: Record)

  /** The hit test: stored date equals today's and the stored object is truthy. */
  predicate Fresh(slot: Slot, today: string) {
    slot.date == Some(today) && slot.data.Some? && NonEmpty(slot.data.value)
  }

  datatype Step = Step(result: Option<Record>, slot: Slot, requested: bool)

  /** One call of the fetch: the result handed to the caller, the slot
      afterwards, and whether the upstream endpoint was asked. */
  function Fetch(slot: Slot, today: string, up: Upstream): (s: Step)
    ensures s.requested <==> !Fresh(slot, today)
    ensures !s.requested ==> s.result == slot.data && s.result.Some? && s.slot == slot
    ensures s.requested && up.RequestFailed? ==> s.result == None && s.slot == slot
    ensures s.requested && up.Responded? ==>
      s.result == Some(up.record) && s.slot == Slot(up.record.date, Some(up.record))
  {
    if Fresh(slot, today) then Step(slot.data, slot, false)
    else match up
      case RequestFailed => Step(None, slot, true)
      case Responded(rec) => Step(Some(rec), Slot(rec.date, Some(rec)), true)
  }

  /** Number of upstream requests made by consecutive fetches on the local
      day `today`, where `ups[i]` is what the endpoint would answer the i-th
      time it is asked. */
  function Requests(slot: Slot, today: string, ups: seq<Upstream>): nat
    decreases |ups|
  {
    if ups == [] then 0
    else
      var s := Fetch(slot, today, ups[0]);
      (if s.requested then 1 else 0) + Requests(s.slot, today, ups[1..])
  }

  /** What those consecutive fetches hand back, in order. */
  function Results(slot: Slot, today: string, ups: seq<Upstream>): (rs: seq<Option<Record>>)
    ensures |rs| == |ups|
    decreases |ups|
  {
    if ups == [] then []
    else
      var s := Fetch(slot, today, ups[0]);
      [s.result] + Results(s.slot, today, ups[1..])
  }

  /** Once the slot is fresh, the rest of the day makes no request and keeps
      returning the cached record. */
  lemma {:induction false} FreshServesFromCache(slot: Slot, today: string, ups: seq<Upstream>)
    requires Fresh(slot, today)
    ensures Requests(slot, today, ups) == 0
    decreases |ups|
    ensures forall i :: 0 <= i < |ups| ==> Results(slot, today, ups)[i] == slot.data
  {
    if ups != [] {
      FreshServesFromCache(slot, today, ups[1..]);
    }
  }

  /** A record the endpoint dates with the local day is fetched once: the
      request that returns it is the last one that day, and every later
      fetch returns the same record. */
  lemma OneRequestOnceUpstreamIsCurrent(slot: Slot, today: string, rec: Record, ups: seq<Upstream>)
    requires !Fresh(slot, today)
    requires NonEmpty(rec) && rec.date == Some(today)
    requires ups != [] && ups[0] == Responded(rec)
    ensures Requests(slot, today, ups) == 1
    ensures forall i :: 0 <= i < |ups| ==> Results(slot, today, ups)[i] == Some(rec)
  {
    var s := Fetch(slot, today, ups[0]);
    FreshServesFromCache(s.slot, today, ups[1..]);
    forall i | 1 <= i < |ups|
      ensures Results(slot, today, ups)[i] == Some(rec)
    {
      assert Results(slot, today, ups)[i] == Results(s.slot, today, ups[1..])[i - 1];
    }
  }

  /** An answer that does not make the slot fresh (a failure, an empty object,
      or a date other than the local one). */
  predicate Stale(up: Upstream, today: string) {
    up.RequestFailed? || !Fresh(Slot(up.record.date, Some(up.record)), today)
  }

  /** While the endpoint has not rolled over to the local date, every fetch
      asks it again: the cache saves nothing. */
  lemma {:induction false} StaleUpstreamAlwaysRequested(slot: Slot, today: string, ups: seq<Upstream>)
    requires !Fresh(slot, today)
    requires forall i :: 0 <= i < |ups| ==> Stale(ups[i], today)
    ensures Requests(slot, today, ups) == |ups|
    decreases |ups|
  {
    if ups != [] {
      var s := Fetch(slot, today, ups[0]);
      assert Stale(ups[0], today);
      assert !Fresh(s.slot, today);
      StaleUpstreamAlwaysRequested(s.slot, today, ups[1..]);
    }
  }
}
