/** Runs of the bot from a fresh process, using only the contracts of `Poller.Bot`. */
module PollerRuns {
  import opened Wrappers
  import opened PyText
  import opened ApodRecord
  import opened ChannelRegistry
  import opened FetchCache
  import opened Poller

  /** Two polls in a row: when the second finds the same date (from the cache
      or from the endpoint) or cannot fetch, it posts nowhere. */
  method SecondPollIsQuiet(file: RegistryFile, today: string, first: Record, second: Upstream,
                           deliver: Entry -> Delivery)
    returns (firstAttempts: seq<Attempt>, secondAttempts: seq<Attempt>)
    requires NonEmpty(first)
    requires second.Responded? ==> second.record.date == first.date
    ensures secondAttempts == []
    ensures first.date.Some? ==> |firstAttempts| == |Load(file)|
    ensures first.date.None? ==> firstAttempts == []
  {
    var bot := new Bot(file);
    firstAttempts := bot.CheckAndPostApod(today, Responded(first), deliver);
    secondAttempts := bot.CheckAndPostApod(today, second, deliver);
  }

  /** A failing first channel does not keep the poll from the second one, and
      the marker moves to the new date all the same. */
  method FailureDoesNotStopFanOut(g1: string, c1: int, g2: string, c2: int, today: string,
                                  rec: Record, deliver: Entry -> Delivery)
    returns (attempts: seq<Attempt>, marker: Option<string>)
    requires g1 != g2
    requires NonEmpty(rec) && rec.date.Some?
    requires deliver(Entry(g1, c1)) != Posted
    ensures |attempts| == 2
    ensures attempts[0] == Attempt(Entry(g1, c1), deliver(Entry(g1, c1)))
    ensures attempts[1] == Attempt(Entry(g2, c2), deliver(Entry(g2, c2)))
    ensures marker == rec.date
  {
    var pairs := [Entry(g1, c1), Entry(g2, c2)];
    FromPairsOfDistinct(pairs);
    var bot := new Bot(Json(pairs));
    attempts := bot.CheckAndPostApod(today, Responded(rec), deliver);
    marker := bot.lastPosted;
  }

  /** Subscribe guild 100 to channel 555 on a fresh install, then poll twice
      on the day the endpoint reports: one request, one post to 555, and the
      second poll neither asks the endpoint nor posts. */
  method SubscribeThenPollTwice(rec: Record, deliver: Entry -> Delivery)
    returns (first: seq<Attempt>, second: seq<Attempt>, marker: Option<string>, ghost requests: nat)
    requires rec.date == Some("2024-01-01")
    ensures first == [Attempt(Entry("100", 555), deliver(Entry("100", 555)))]
    ensures second == []
    ensures marker == Some("2024-01-01")
    ensures requests == 1
  {
    var bot := new Bot(Missing);
    bot.SetChannel(100, 555);
    assert Decimal(100) == "100";
    first := bot.CheckAndPostApod("2024-01-01", Responded(rec), deliver);
    second := bot.CheckAndPostApod("2024-01-01", RequestFailed, deliver);
    marker := bot.lastPosted;
    requests := bot.requests;
  }

  /** The marker remembers one date only. While the endpoint has not rolled
      over to `today` (so the cache never answers), answers dated A, then B,
      then A again make the third poll post A to every channel a second time. */
  method RepostAfterInterleavedDate(file: RegistryFile, today: string, a: Record, b: Record,
                                    deliver: Entry -> Delivery)
    returns (first: seq<Attempt>, second: seq<Attempt>, third: seq<Attempt>)
    requires NonEmpty(a) && NonEmpty(b) && a.date.Some? && b.date.Some?
    requires a.date != b.date
    requires a.date != Some(today) && b.date != Some(today)
    ensures |first| == |second| == |third| == |Load(file)|
    ensures forall i :: 0 <= i < |third| ==>
      third[i] == Attempt(Load(file)[i], deliver(Load(file)[i]))
  {
    var bot := new Bot(file);
    first := bot.CheckAndPostApod(today, Responded(a), deliver);
    second := bot.CheckAndPostApod(today, Responded(b), deliver);
    third := bot.CheckAndPostApod(today, Responded(a), deliver);
  }

  /** A non-empty answer without a date is posted (its missing date differs
      from the remembered one) and moves the marker to no date at all, so the
      next dated answer is posted again even if it was posted before. */
  method DatelessAnswerClearsMarker(file: RegistryFile, today: string, dated: Record,
                                    dateless: Record, deliver: Entry -> Delivery)
    returns (first: seq<Attempt>, second: seq<Attempt>, marker: Option<string>,
             third: seq<Attempt>)
    requires NonEmpty(dated) && dated.date.Some? && dated.date != Some(today)
    requires NonEmpty(dateless) && dateless.date.None?
    ensures |first| == |second| == |third| == |Load(file)|
    ensures marker == None
  {
    var bot := new Bot(file);
    first := bot.CheckAndPostApod(today, Responded(dated), deliver);
    second := bot.CheckAndPostApod(today, Responded(dateless), deliver);
    marker := bot.lastPosted;
    third := bot.CheckAndPostApod(today, Responded(dated), deliver);
  }

  /** Unsubscribing a guild that has no entry answers "not set" and leaves the
      file exactly as it was. */
  method UnsetOfUnknownGuildKeepsFile(file: RegistryFile, guildId: nat)
    returns (removed: bool, after: RegistryFile)
    requires Decimal(guildId) !in Keys(Load(file))
    ensures !removed
    ensures after == file
  {
    var bot := new Bot(file);
    removed := bot.UnsetChannel(guildId);
    after := bot.stored;
  }
}
