# Picture-of-the-day relay bot: a verified model of its decision logic

The bot polls NASA's Astronomy Picture of the Day endpoint every five minutes
and posts the day's record, as one embed, to a channel in every Discord guild
that subscribed. Beneath the Discord, HTTP, imaging and file I/O sits a small
amount of stateful decision logic, and that is what this project models and
proves:

- **Daily fetch cache** (`FetchCache`, `Poller.Bot.FetchApod`): a single slot
  `{date, data}`. A fetch is served from it when the stored date, which is the
  date the *response* reported, equals the caller's *local* date and the stored
  object is non-empty. Otherwise one request is made: a record replaces the
  slot wholesale, and a failure returns nothing and leaves the slot alone.
- **Poller** (`Poller.Bot.CheckAndPostApod`): fetch; stop on failure or when the
  record's date is the last one posted; otherwise reload the registry from the
  file, attempt every entry in order, catching each channel's failure, and only
  then move the marker.
- **Channel registry** (`ChannelRegistry`, `Poller.Bot.SetChannel`,
  `Poller.Bot.UnsetChannel`): an insertion-ordered dictionary from guild-id
  strings to channel ids. It is kept in memory and written out whole after each
  change. A missing or unparsable file reads as empty, and a file with a
  repeated key reads as Python's `json.load` builds it.
- **Message composition** (`MessageComposer`): footer assembly, the URL, title
  and explanation defaults, and the image / video / other branch.
- **Image size rules** (`ImagePipeline`): the 1280-pixel width cap without
  upscaling, the 8,000,000-byte ceiling, and the files the pipeline writes.

Python's string behaviour that the logic depends on (`str.strip`, `str.join`,
`str(int)`, `os.path.basename`, truthiness) is written out in `PyText`.
Channel delivery is an abstract per-channel outcome (posted, not found,
forbidden, other error). The upstream answer, the image download and the size
of the PNG encoding are inputs.

Three behaviours of the code are easy to misread, and the model follows the code:

- The docstring of `fetch_apod` (bot.py:68) says the cache avoids redundant API
  calls. The code serves from the cache only when the date the endpoint
  reported equals the local date (bot.py:73). While the endpoint has not rolled
  over to the local day, every fetch asks it again
  (`FetchCache.StaleUpstreamAlwaysRequested`).
- An image record gets an attachment or an "Image Link" field only when it has
  both a link and a date (bot.py:190). An image record without a date gets
  neither.
- The poll compares the fetched date with the last posted date only
  (bot.py:266). A date seen earlier but not last is posted again
  (`PollerRuns.RepostAfterInterleavedDate`). A non-empty answer without a date
  is posted and sets the marker to no date (`PollerRuns.DatelessAnswerClearsMarker`).

## Model

| member | source | states |
|---|---|---|
| `PyText.StripDecompose` | bot.py:180 | `str.strip()` removes whitespace from the two ends only: the input is whitespace, then the result, then whitespace |
| `PyText.Strip` | bot.py:180 | the stripped copyright neither starts nor ends with whitespace |
| `PyText.StripIdempotent` | bot.py:180 | stripping twice is stripping once |
| `PyText.JoinSnoc` | bot.py:183-185 | joining parts with one more appended adds the separator and that part at the end |
| `PyText.ParseDecimalInverse` | bot.py:230 | `str()` of a guild id reads back as the same id |
| `PyText.DecimalInjective` | bot.py:230 | distinct guild ids give distinct registry keys, so there is one entry per guild |
| `PyText.Basename` | bot.py:101 | the raw file name is the part of the URL after its last '/' and holds no '/' |
| `ApodRecord.ImageUrl` | bot.py:166 | the image link is the high-resolution link when that is a non-empty string, else the plain one; a link exists iff either is non-empty |
| `ChannelRegistry.Upsert` | bot.py:232 | setting a key keeps an existing key in its place and puts a new key last, after every existing entry |
| `ChannelRegistry.UpsertLookup` | bot.py:232 | after setting, the guild maps to the new channel and every other guild to what it did |
| `ChannelRegistry.UpsertDistinct` | bot.py:232 | setting keeps one entry per guild |
| `ChannelRegistry.Remove` | bot.py:242-243 | after deleting, the key is gone; deleting an absent key leaves the registry as it was |
| `ChannelRegistry.RemoveLookup` | bot.py:243 | after deleting, the guild has no channel and every other guild keeps its own |
| `ChannelRegistry.RemoveKeepsOtherKeys` | bot.py:243 | deleting removes that key only |
| `ChannelRegistry.RemoveDistinct` | bot.py:243 | deleting keeps one entry per guild |
| `ChannelRegistry.RemoveAt` | bot.py:243 | in a well-formed registry, deleting a key drops exactly its entry and keeps the others in order |
| `ChannelRegistry.LookupAbsent` | bot.py:242 | the `in` test agrees with lookup |
| `ChannelRegistry.DistinctConcat` | bot.py:56 | a sequence of pairs has distinct keys iff both halves do and they share no key |
| `ChannelRegistry.FromPairs` | bot.py:56 | a loaded file always gives a registry with distinct keys |
| `ChannelRegistry.FromPairsLastWins` | bot.py:56 | a key repeated in the file takes the last value written for it |
| `ChannelRegistry.FromPairsOfDistinct` | bot.py:56 | a file with distinct keys loads as exactly its pairs, in order |
| `ChannelRegistry.Load` | bot.py:50-58 | a missing or unparsable file loads as the empty registry |
| `ChannelRegistry.LoadSave` | bot.py:50-64 | loading what was saved gives back the registry |
| `ChannelRegistry.SaveLoad` | bot.py:50-64 | saving what was loaded from a well-formed file rewrites the same file |
| `FetchCache.Fetch` | bot.py:67-91 | a request is made iff the slot is not fresh for today; a hit returns the cached record and keeps the slot; a failure returns nothing and keeps the slot; a response is returned and replaces the slot with its own date and itself |
| `FetchCache.FreshServesFromCache` | bot.py:70-74 | once the slot is fresh, the rest of the day makes no request and returns the cached record every time |
| `FetchCache.OneRequestOnceUpstreamIsCurrent` | bot.py:70-88 | when the endpoint answers with a non-empty record dated today, that day makes exactly one request and every fetch returns that record |
| `FetchCache.StaleUpstreamAlwaysRequested` | bot.py:70-85 | while no answer is dated today (or all fail), every fetch makes a request |
| `ImagePipeline.Resize` | bot.py:110-115 | width at most 1280 is left alone; a wider image gets width exactly 1280 and a height at most the proportional height 1280·h/w and at least that minus one |
| `ImagePipeline.ResizeNeverGrows` | bot.py:111-114 | neither side of the image grows |
| `ImagePipeline.DistinctArchives` | bot.py:102-127 | the raw-archive path string and the processed-cache path string always differ |
| `ImagePipeline.Process` | bot.py:94-136 | an attachment is returned iff the download succeeded, the raw path names a file, the image decoded, any resize gives a positive height and the PNG is at most 8,000,000 bytes; it is named apod.png with the resized dimensions; the raw file is written iff the download succeeded and the raw path names a file, and the PNG iff an attachment is returned |
| `ImagePipeline.WriteOrder` | bot.py:102-128 | the raw file is written before the PNG, and the two are different paths |
| `ImagePipeline.AttachmentWithinLimits` | bot.py:111-124 | any returned attachment is at most 8,000,000 bytes and 1280 pixels wide, no larger than the decoded image, and of positive height when the decoded image has one |
| `MessageComposer.FooterLayout` | bot.py:178-185 | the footer is "© stripped copyright", when present, then the date, when present, then the signature, separated by a space, a vertical bar and a space |
| `MessageComposer.FooterEndsWithSignature` | bot.py:183-185 | the signature always closes the footer |
| `MessageComposer.Compose` | bot.py:165-201 | title and explanation defaults; the footer; an attachment, referenced inline, exactly when an image record's pipeline run succeeded; the "Image Link" field exactly when it failed; a linked title with " (Video)" exactly for videos; nothing for other types |
| `MessageComposer.MediaIsExclusive` | bot.py:189-201 | at most one of attachment, link field and linked title appears |
| `MessageComposer.AttachedFileFits` | bot.py:190-194 | a message built from the pipeline's result never carries a file over the ceiling |
| `Poller.Bot.constructor` | bot.py:45-47 | the process starts with an empty cache, no marker, and the registry read from the file (line 142) |
| `Poller.Bot.FetchApod` | bot.py:67-91 | the result and the new slot are those of `FetchCache.Fetch`, and a request is counted exactly when it makes one |
| `Poller.Bot.SetChannel` | bot.py:229-233 | the registry is the old one with the guild's key set to the channel, and the file holds exactly that registry |
| `Poller.Bot.UnsetChannel` | bot.py:240-248 | reports whether the guild had an entry; if so, the entry is removed and the file rewritten, otherwise registry and file are untouched |
| `Poller.Bot.CheckAndPostApod` | bot.py:253-287 | on fetch failure, an empty record or an unchanged date, nothing is attempted and the marker stays; otherwise every entry of the reloaded registry is attempted in order, whatever each outcome, and the marker becomes the record's date |
| `Poller.PostToEach` | bot.py:270-280 | the fan-out attempts every registry entry, in order, one attempt each, whatever each outcome |
| `PollerRuns.SecondPollIsQuiet` | bot.py:258-287 | a second poll that sees the same date, or cannot fetch, attempts no channel |
| `PollerRuns.FailureDoesNotStopFanOut` | bot.py:269-283 | a failure on the first channel does not stop the attempt on the second, and the marker still moves |
| `PollerRuns.SubscribeThenPollTwice` | bot.py:253-283 | after subscribing guild 100 to channel 555, the first poll posts to 555 and sets the marker, and a second poll the same day neither requests nor posts |
| `PollerRuns.RepostAfterInterleavedDate` | bot.py:262-283 | with answers dated A, B, A while the cache is stale, the third poll attempts every channel again |
| `PollerRuns.DatelessAnswerClearsMarker` | bot.py:262-283 | a non-empty answer without a date is posted to every channel and leaves the marker at no date; the next dated answer is posted again |
| `PollerRuns.UnsetOfUnknownGuildKeepsFile` | bot.py:241-248 | unsubscribing a guild without an entry reports so and leaves the file as it was |

## Left out

- The Discord runtime is not modelled: bot construction, `on_ready`, command sync, the interaction replies and `channel.send`. Resolving a channel and sending the embed together are one abstract outcome per registry entry.
- The manual `/apod` command (bot.py:210-223) is not modelled as a member. Its administrator check and replies belong to the Discord runtime, and its logic is the same fetch and the same `Compose` that are modelled.
- The HTTP requests are inputs. The endpoint's answer is a failure or a typed record, and the image download is a failure or a decoded size.
- JSON is not modelled. A record field is either absent or a string; a JSON `null`, a non-string value and a non-object answer are not represented. The registry file is a sequence of key/value pairs; a non-object file and non-integer channel ids are not represented.
- Pillow's decoding, LANCZOS resampling and PNG encoding are inputs. The model takes the decoded size and the byte length of the encoding.
- ImagePipeline.Resize: the body computes the exact floor of 1280·h/w. The source truncates the double `(1280 / w) * h`, which can come out one lower. That happens only when 1280·h/w is a whole number, and the contract allows it (height at most the proportional height and at least that minus one), so both values satisfy it; the exact-floor value is still what the rest of the model uses, including for the zero-height test in `ImagePipeline.Resizable`.
- ImagePipeline.Process: the only file-system failure modelled is a raw path that names a directory (an empty, "." or ".." basename). Other write failures, such as permissions or a date containing '/', are not modelled.
- ImagePipeline.Process: when the width is exactly 1280·h for the height h (62720×49, say), the source's double `(1280 / 62720) * 49` truncates to 0, the resize to height 0 raises, and the source returns None, so the message falls back to the "Image Link" field. The model's exact floor gives height 1 there, so `Process` returns a 1280×1 attachment instead.
- ImagePipeline.DistinctArchives: it compares the two path strings. A date containing '/' or '..' could still make both names resolve to one file; the file system is not modelled.
- The poll runs the image pipeline once per channel, since each `send_apod_messages` call (bot.py:273) downloads and processes the image again (bot.py:191). The model folds each run, and its files, into that channel's delivery outcome.
- Logging (`print`), the environment and token loading with `exit()` (bot.py:19-27), directory creation, and the embed colour are not modelled.
- The five-minute timer and any overlap between a manual command and the poll are not modelled. They are concurrency; each method runs to completion.
- Edits made to the registry file by hand while the bot runs are not modelled. `Poller.Bot.InSync` states that memory and file agree, and every method keeps or re-establishes this.
- Poller.Bot.SetChannel and Poller.Bot.UnsetChannel take the guild id as a natural number. Discord ids are positive, so the '-' that `str()` gives a negative number never arises.
