/** The bot's process-wide state and the operations that change it: the
    cached fetch, the subscribe and unsubscribe commands, and the five-minute
    poll that posts a new picture to every subscribed channel once. */
module Poller {
  import opened Wrappers
  import opened PyText
  import opened ApodRecord
  import opened ChannelRegistry
  import opened FetchCache

  /** How one channel's delivery ended: posted, or one of the three failures
      the poll catches (`NotFound`, `Forbidden`, anything else). */
  datatype Delivery = Posted | NotFound | Forbidden | OtherError

  datatype Attempt = Attempt(entry: Entry, outcome: Delivery)

  /** The poll's decision: a truthy record whose date differs from the last
      one posted. */
  predicate ShouldPost(fetched: Option<Record>, lastPosted: Option<string>) {
    fetched.Some? && NonEmpty(fetched.value) && fetched.value.date != lastPosted
  }

  class Bot {
    var cacheDate: Option<string>
    var cacheData: Option<Record>
    var lastPosted: Option<string>
    /** The registry held in memory since start-up. */
    var channels: Registry
    /** The configuration file. */
    var stored: RegistryFile
    /** Upstream requests made so far (instrumentation, not in the source). */
    ghost var requests: nat

    ghost predicate Valid()
      reads this
    {
      DistinctKeys(channels)
    }

    function Cache(): Slot
      reads this
    {
      Slot(cacheDate, cacheData)
    }

    /** Memory and file agree: a reload gives the registry held in memory. */
    predicate InSync()
      reads this
    {
      Load(stored) == channels
    }

    /** Process start: empty cache, no marker, registry read from the file. */
    constructor (file: RegistryFile)
      ensures Valid() && InSync()
      ensures Cache() == Empty && lastPosted == None && requests == 0
      ensures stored == file && channels == Load(file)
    {
      cacheDate, cacheData := None, None;
      lastPosted := None;
      stored := file;
      channels := Load(file);
      requests := 0;
    }

    /** `fetch_apod`: served from the slot when it is fresh for `today`;
        otherwise one request, whose record replaces the slot wholesale, or
        whose failure leaves it alone. */
    method FetchApod(today: string, up: Upstream) returns (r: Option<Record>)
      modifies this`cacheDate, this`cacheData, this`requests
      ensures var s := Fetch(old(Cache()), today, up);
        r == s.result && Cache() == s.slot
        && requests == old(requests) + (if s.requested then 1 else 0)
    {
      if cacheDate == Some(today) && cacheData.Some? && NonEmpty(cacheData.value) {
        return cacheData;
      }
      requests := requests + 1;
      match up {
        case RequestFailed =>
          r := None;
        case Responded(rec) =>
          cacheDate := rec.date;
          cacheData := Some(rec);
          r := Some(rec);
      }
    }

    /** `set_channel`: the guild's key, `str(guild id)`, maps to the channel;
        the whole registry is then written out. */
    method SetChannel(guildId: nat, channelId: int)
      requires Valid()
      modifies this`channels, this`stored
      ensures Valid() && InSync()
      ensures channels == Upsert(old(channels), Decimal(guildId), channelId)
      ensures stored == Save(channels)
    {
      UpsertDistinct(channels, Decimal(guildId), channelId);
      channels := Upsert(channels, Decimal(guildId), channelId);
      stored := Save(channels);
      LoadSave(channels);
    }

    /** `unset_channel`: removes the guild's entry and writes the registry
        only when the entry exists; `removed` selects the reply. */
    method UnsetChannel(guildId: nat) returns (removed: bool)
      requires Valid()
      modifies this`channels, this`stored
      ensures Valid()
      ensures removed <==> Decimal(guildId) in Keys(old(channels))
      ensures removed ==> channels == Remove(old(channels), Decimal(guildId))
                          && stored == Save(channels) && InSync()
      ensures !removed ==> channels == old(channels) && stored == old(stored)
    {
      var key := Decimal(guildId);
      LookupAbsent(channels, key);
      if Lookup(channels, key).Some? {
        RemoveDistinct(channels, key);
        channels := Remove(channels, key);
        stored := Save(channels);
        LoadSave(channels);
        removed := true;
      } else {
        removed := false;
      }
    }

    /** `check_and_post_apod`: fetch; on failure, or when the record's date
        is the one last posted, do nothing more. Otherwise reload the
        registry from the file, attempt every entry in order whatever each
        attempt's outcome, and only then move the marker to the record's date.
        `deliver` stands for resolving the channel and sending the message. */
    method CheckAndPostApod(today: string, up: Upstream, deliver: Entry -> Delivery)
      returns (attempts: seq<Attempt>)
      modifies this`cacheDate, this`cacheData, this`requests, this`lastPosted
      ensures Cache() == Fetch(old(Cache()), today, up).slot
      ensures requests == old(requests) + (if Fetch(old(Cache()), today, up).requested then 1 else 0)
      ensures !ShouldPost(Fetch(old(Cache()), today, up).result, old(lastPosted)) ==>
        attempts == [] && lastPosted == old(lastPosted)
      ensures ShouldPost(Fetch(old(Cache()), today, up).result, old(lastPosted)) ==>
        && lastPosted == Fetch(old(Cache()), today, up).result.value.date
        && |attempts| == |Load(stored)|
        && forall i :: 0 <= i < |attempts| ==>
             attempts[i] == Attempt(Load(stored)[i], deliver(Load(stored)[i]))
    {
      var fetched := FetchApod(today, up);
      attempts := [];
      if fetched.None? || !NonEmpty(fetched.value) {
        return;
      }
      var current := fetched.value.date;
      if current != lastPosted {
        attempts := PostToEach(Load(stored), deliver);
        lastPosted := current;
      }
    }
  }

  /** The fan-out loop of the poll: every entry is attempted, in registry
      order, and a failed attempt is recorded and passed over, never ending
      the loop. */
  method PostToEach(registry: Registry, deliver: Entry -> Delivery) returns (attempts: seq<Attempt>)
    ensures |attempts| == |registry|
    ensures forall i :: 0 <= i < |attempts| ==>
      attempts[i] == Attempt(registry[i], deliver(registry[i]))
  {
    attempts := [];
    var i := 0;
    while i < |registry|
      invariant 0 <= i <= |registry|
      invariant |attempts| == i
      invariant forall k :: 0 <= k < i ==> attempts[k] == Attempt(registry[k], deliver(registry[k]))
    {
      var outcome := deliver(registry[i]);
      attempts := attempts + [Attempt(registry[i], outcome)];
      i := i + 1;
    }
  }
}
