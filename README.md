# Tracker core: handler registry, session window, player registration, frame dedup

This project models the state-keeping part of the `Core` class of a live
combat-telemetry tracker for a multiplayer game (`src/core/Core.ts`). The core keeps:

- a registry of event handlers for seven event kinds (`exp`, `kill`, `death`, `teamkill`,
  `capture`, `defend`, `vehicle`), filled by `on` and run by `emit`;
- a session window (`tracking`: running, start and end time), opened by `start` and closed
  by `stop`, which derives each player's join time and online time from the timestamps of
  that player's recorded events;
- the tracked players: the list `characters` (kept sorted by name) and the map `stats` from
  character id to a per-player record, filled by `subscribeToEvents` when an outfit roster
  (`addOutfit`) or a single player (`addPlayer`) has been resolved by the lookup API. Each
  registration of new players sends one subscribe command on the tracked socket;
- a window of recent raw frames (`socketMessageQueue`) against which `onmessage` drops exact
  duplicates before passing a frame on.

The Dafny class `Core.Core` has the source's fields (`handlers`, `tracking`, `stats`,
`outfits`, `characters`, `socketMessageQueue`) and one method per operation. Each method's
postcondition states the whole new state in terms of the old one.

Wall-clock reads are `now` parameters. Four things outside the core are replaced by plain state:

- The lookup API is modelled by the requests it receives (`lookups`) and by one method per
  success callback (`OnOutfitResolved`, `OnRosterResolved`, `OnPlayerResolved`).
- The tracked socket is a flag `trackedSocketOpen` (whether `sockets.tracked` is set) plus an
  outbox `sent` of `SubscribeCommand` values instead of JSON strings.
- Frames handed to `processMessage` are appended to `processed`.
- Handlers are opaque numbers. `Emit` returns the handlers it ran, in the order it ran them.

The pure steps are functions in their own modules, with lemmas:

- `Events`: kind names and the list `on` writes to.
- `Text`: JavaScript `trim` and the name order.
- `Registry`: the duplicate filter, the sort by name, the record inserts and the stop derivation.
- `Core.Register`: one whole registration step on a `Roster` value (characters, stats, outbox).

Behaviour kept as the code has it:

- `on("teamkill", h)` appends `h` to the **death** list (src/core/Core.ts:120). The `teamkill`
  list is never written, so a teamkill handler runs on death events and never on teamkill
  events (`ListFor`, `TeamkillHandlerOnDeathList`). `handlers` declares a separate `teamkill`
  list (src/core/Core.ts:94) that `on` never fills; this model follows the code.
- `addPlayer`'s handle never becomes `"loaded"` for a non-blank name: its callback does not
  touch the handle. `OnPlayerResolved` does not even receive the handle.
- `onmessage` pushes and then shifts, so the window keeps its length. The window starts empty,
  and no operation of `Core.ts` adds to it otherwise, so it stays empty and nothing is ever
  dropped as a duplicate (`DedupWindow`). A sliding window only forms if something outside
  `Core` fills `socketMessageQueue`.
- A new player's `joinTime` is `now` only when the character is online. Otherwise it keeps
  the record's default, taken here as `DefaultJoinTime = 0`.
- A batch may repeat an id: nothing rules this out for the roster callback
  (src/core/Core.ts:184-185), and the filter at src/core/Core.ts:226-228 only tests the ids
  already tracked. Every copy then enters `characters`, while `stats.set` keeps only the record
  built from the last copy (`RegisterNewRecords`). For a batch that lists one id online
  and then offline, both copies are tracked and the record joins at the default time
  (`RegisterRepeatedId`). The lemmas `RegisterDistinct` and `RegisterKeepsDistinct` state
  that ids stay distinct only for batches without repeated ids, because with repeats they do not.

## Model

| member | source | states |
|---|---|---|
| `Events.ParseKind` | src/core/Core.ts:115-124 | a tag selects kind `k` exactly when it is `k`'s name; it selects nothing (the throwing default case) exactly when it names no kind |
| `Events.ListFor` | src/core/Core.ts:116-123 | `on` never targets the teamkill list; teamkill targets the death list; every other kind targets its own list |
| `Events.ListForSharing` | src/core/Core.ts:119-120 | two kinds share a handler list exactly when they are equal or are death and teamkill |
| `Events.KindName` | src/core/Core.ts:116-123 | the tag of each kind; `ParseKind` is proved to be its inverse |
| `Core.SubscribeTo` | src/core/Core.ts:250-264 | the subscribe command for a list of ids: action `subscribe`, those ids in order, the six fixed event names, service `event` |
| `Core.Register` | src/core/Core.ts:219-267 | one registration step on the roster; its promises are stated by `RegisterConsistent`, `RegisterAdds`, `RegisterDistinct`, `RegisterNewRecords`, `RegisterSends` and `RegisterIdempotent` |
| `Registry.Registered` | src/core/Core.ts:238-248 | the stats map after `stats.set` of a fresh record for each batch character, in order; stated by `RegisteredFrame`, `RegisteredLast` and `RegisteredEntry` |
| `Registry.SortByName` | src/core/Core.ts:234-236 | the list sorted by name; stated by `SortByNameSorted`, `SortByNamePermutes` and `SortByNameDistinct` |
| `Registry.InsertByName` | src/core/Core.ts:234-236 | one insertion step of the sort; stated by `InsertByNameSorted`, `InsertByNamePermutes` and `InsertByNameDistinct` |
| `Registry.Stopped` | src/core/Core.ts:152-162 | `stop`'s update of one record; stated by the `Stopped*` lemmas |
| `Text.IsWhitespace` | src/core/Core.ts:175 | the characters `trim` removes: ECMAScript WhiteSpace and LineTerminator |
| `Text.NameLe` | src/core/Core.ts:235 | the name order standing in for `localeCompare`: a total order by `NameLeReflexive`, `NameLeAntisymmetric`, `NameLeTransitive` and `NameLeTotal` |
| `Core.Core.On` | src/core/Core.ts:115-126 | an unknown tag fails with "Unchecked event type <tag>" and changes nothing; a known tag appends the handler to the end of exactly the list `ListFor` names and leaves every other list unchanged |
| `Core.Core.Emit` | src/core/Core.ts:105-107 | runs exactly the handlers of the event's kind, in registration order, each once |
| `Core.Core.constructor` | src/core/Core.ts:50-98 | all seven handler lists empty, not running, start and end time both the construction time, no players, no outfits, empty window, no socket |
| `Core.Core.Start` | src/core/Core.ts:131-139 | running becomes true and the start time `now`; the set of tracked ids is unchanged and every player's join time becomes `now`, nothing else in the record changes |
| `Core.Core.Stop` | src/core/Core.ts:144-163 | running becomes false; the end time becomes `now` only if tracking was running; the start time and the set of tracked ids are unchanged; every record becomes `Stopped` of its old value |
| `Registry.StoppedOnlineTime` | src/core/Core.ts:153-158 | with at least one event, join time is the first event's timestamp and online time times 1000 is the span from first to last event; non-negative when the events are chronological |
| `Registry.StoppedWithoutEvents` | src/core/Core.ts:159-161 | with no events, join time is untouched and online time is 0 |
| `Registry.StoppedWithinWindow` | src/core/Core.ts:152-162 | online time never exceeds the window that contains all of the player's events |
| `Registry.StoppedExample` | src/core/Core.ts:152-162 | events at 1000, 4000, 9000 ms give join time 1000 and 8 seconds online |
| `Registry.StoppedIdempotent` | src/core/Core.ts:152-162 | stopping twice derives the same record as stopping once |
| `Registry.StoppedKeepsIdentity` | src/core/Core.ts:152-162 | stop keeps a record's id and events |
| `Text.TrimStart` | src/core/Core.ts:175 | removes exactly a blank prefix: the rest is a suffix of the input that does not start with whitespace |
| `Text.TrimEnd` | src/core/Core.ts:175 | removes exactly a blank suffix: the rest is a prefix of the input that does not end with whitespace |
| `Text.Trim` | src/core/Core.ts:175 | the trimmed string is the part of the input between a blank prefix and a blank suffix, and neither starts nor ends with whitespace |
| `Text.TrimEmptyIffBlank` | src/core/Core.ts:175 | `trim()` is empty exactly when every character of the input is JavaScript whitespace |
| `Core.Core.AddOutfit` | src/core/Core.ts:172-190 | a blank tag returns a fresh handle already loaded and requests nothing; any other tag returns a fresh loading handle and requests the outfit and its roster by that tag |
| `Core.Core.OnOutfitResolved` | src/core/Core.ts:180-182 | appends the resolved outfit id to `outfits` |
| `Core.Core.OnRosterResolved` | src/core/Core.ts:184-187 | registers the roster (state becomes `Register` of the old roster) and then marks the handle loaded |
| `Core.Core.AddPlayer` | src/core/Core.ts:199-212 | a blank name returns a fresh handle already loaded and requests nothing; any other name returns a fresh loading handle and requests that player |
| `Core.Core.OnPlayerResolved` | src/core/Core.ts:207-209 | registers the one resolved character and touches no handle |
| `Core.Core.SubscribeToEvents` | src/core/Core.ts:219-267 | keeps the roster invariant and leaves characters, stats and outbox equal to `Register` of their old values |
| `Core.Core.InsertPlayers` | src/core/Core.ts:238-248 | the stats map after inserting one fresh record per character, in order |
| `Registry.Untracked` | src/core/Core.ts:226-228 | a character is kept exactly when it is in the batch and its id is not among the tracked ids; never longer than the batch |
| `Registry.UntrackedAppend` | src/core/Core.ts:226-228 | the filter keeps input order: filtering a concatenation concatenates the filtered parts |
| `Registry.UntrackedDistinct` | src/core/Core.ts:226-228 | a batch with distinct ids stays distinct after filtering |
| `Registry.AppendUntrackedDistinct` | src/core/Core.ts:226-236 | appending the filtered batch to a list with distinct ids keeps the ids distinct |
| `Registry.SortByNamePermutes` | src/core/Core.ts:234-236 | sorting keeps every character, each as often as before |
| `Registry.InsertByNamePermutes` | src/core/Core.ts:234-236 | inserting adds exactly the one character |
| `Registry.SortByNameSorted` | src/core/Core.ts:234-236 | the sorted list is ordered by name |
| `Registry.InsertByNameSorted` | src/core/Core.ts:234-236 | inserting into a list ordered by name keeps it ordered |
| `Registry.SortByNameDistinct` | src/core/Core.ts:234-236 | sorting keeps distinct ids distinct |
| `Registry.InsertByNameDistinct` | src/core/Core.ts:234-236 | inserting a character with a new id keeps ids distinct |
| `Registry.IdSetOfPermutation` | src/core/Core.ts:234-236 | a reordered list tracks the same ids |
| `Text.NameLeTotal` | src/core/Core.ts:234-236 | any two names are comparable under the sort order |
| `Text.NameLeTransitive` | src/core/Core.ts:234-236 | the sort order is transitive |
| `Text.NameLeReflexive` | src/core/Core.ts:234-236 | every name is at most itself |
| `Text.NameLeAntisymmetric` | src/core/Core.ts:234-236 | names that are each at most the other are equal |
| `Registry.NewPlayer` | src/core/Core.ts:239-247 | the new record carries the character's id, name, faction and outfit tag, joins at `now` if online and at the default otherwise, with no online time and no events |
| `Registry.RegisteredFrame` | src/core/Core.ts:238-248 | inserting a batch adds exactly the batch's ids as keys, leaves every other record alone and keeps records keyed by id |
| `Registry.RegisteredSnoc` | src/core/Core.ts:238-248 | inserting one more character sets exactly that character's record |
| `Registry.RegisteredEntry` | src/core/Core.ts:238-248 | with distinct ids, each batch character's key holds that character's fresh record |
| `Registry.RegisteredEntries` | src/core/Core.ts:238-248 | with distinct ids, every batch character's key holds that character's fresh record |
| `Registry.UntrackedAreNew` | src/core/Core.ts:226-228 | no id that survives the filter is already a key of `stats` |
| `Registry.RegisterKeepsRegistry` | src/core/Core.ts:225-248 | after registration the records stay keyed by id, the list stays sorted and tracks exactly the keys of `stats`, the list is the old one plus the new characters, and existing records are untouched |
| `Registry.RegisterKeepsDistinct` | src/core/Core.ts:225-236 | with distinct ids in the list and in the batch, the new list has distinct ids |
| `Core.RegisterConsistent` | src/core/Core.ts:219-248 | registration keeps the roster invariant and never alters an existing record |
| `Core.RegisterAdds` | src/core/Core.ts:225-248 | the list gains exactly the new characters and `stats` gains exactly their ids; a character is new exactly when it is in the batch and its id is not tracked |
| `Core.RegisterDistinct` | src/core/Core.ts:225-236 | distinct tracked ids stay distinct when the batch has distinct ids |
| `Core.RegisterNewRecords` | src/core/Core.ts:238-248 | on an open socket, every new id holds the fresh record of the last batch character with that id; with distinct ids that is the character's own record, joining at `now` exactly when online |
| `Core.RegisterRepeatedId` | src/core/Core.ts:226-248 | a batch that lists one id twice, first online and then offline, tracks both copies in the list and keeps only the offline copy's record, which joins at the default time instead of `now` |
| `Registry.RegisteredSameIdTwice` | src/core/Core.ts:238-248 | of two batch characters with the same id, the second one's record is the one kept |
| `Registry.LastIndexOf` | src/core/Core.ts:238-247 | the position of the last batch character with a given id: it has that id and no later one does |
| `Registry.RegisteredLast` | src/core/Core.ts:238-248 | for any batch, each of its ids holds the fresh record of the last character with that id |
| `Registry.UntrackedLast` | src/core/Core.ts:226-228 | for an untracked id, the last filtered character with it is the last batch character with it |
| `Core.RegisterSends` | src/core/Core.ts:219-266 | one subscribe command naming the new ids in input order is sent when the socket is open and some id is new; otherwise nothing is sent |
| `Core.RegisterIdempotent` | src/core/Core.ts:225-232 | registering the same batch again, at any later time, changes nothing: tracked ids are never re-subscribed |
| `Core.RegisterTwoPlayers` | src/core/Core.ts:250-266 | registering p1 and p2 on an empty roster tracks both and sends `subscribe` for `["p1","p2"]` with the six fixed event names and service `event` |
| `Core.SubscribeTwoPlayers` | src/core/Core.ts:219-266 | through the class: one command for p1 and p2, nothing more when they are registered again |
| `Core.Core.OnMessage` | src/core/Core.ts:269-281 | a frame equal to a window entry changes nothing and is not passed on; any other frame is passed on once and the window becomes the old one plus the frame minus its first entry, keeping its length |
| `Core.DispatchInRegistrationOrder` | src/core/Core.ts:105-126 | three kill handlers registered in order run as 1, 2, 3 |
| `Core.TeamkillHandlerOnDeathList` | src/core/Core.ts:105-124 | a handler registered for teamkill runs for a death event and not for a teamkill event; an unknown tag is refused with its message |
| `Core.DedupWindow` | src/core/Core.ts:269-281 | a frame in a two-entry window is dropped and a new one slides the window; with the initial empty window a repeated frame is passed on twice |

## Left out

- Imports, the Vue/jQuery/JSZip/moment glue and the global `window` binding: not logic.
- `CensusAPI.init` in the constructor: an external call. The service id is only stored.
- The lookups themselves (`OutfitAPI.getByTag`, `OutfitAPI.getCharactersByTag`, `CharacterAPI.getByName`): network calls. They are recorded as `lookups` and their success callbacks are methods. A lookup that fails never calls back, so the handle stays loading. The model has no failure path because the source has none.
- The `WebSocket` objects, `send` and JSON encoding: I/O. The tracked socket is an open flag plus an outbox of command values. The `logistics`, `logins` and `facility` sockets are not modelled because no operation of `Core.ts` uses them.
- `console.warn` when the tracked socket is null: logging only.
- `processMessage`: it is not part of this model, and event parsing lives in other files. A passed-on frame is appended to `processed`.
- The empty router, login and facility socket handlers: they have no behaviour.
- `routerTracking`, `miscEvents`, `playerCaptures`, `facilityCaptures`, `rawData`: declared, but no operation of `Core.ts` reads or writes them.
- Core.Core.Emit: handlers are numbers, so their effects and a handler that throws (which aborts the rest of the dispatch) are not modelled. `Emit` returns the handlers in the order they would run.
- Event payloads beyond the kind tag and the timestamp: other files parse them.
- `localeCompare`: locale collation is replaced by lexicographic order on characters (`NameLe`). The model does not show that the sort is stable.
- `TrackedPlayer` is a class in the source and is updated in place. Here it is a value in the `stats` map, which is reassigned. Aliasing of records held elsewhere is not captured. `InvididualGenerator.ts`, which defines it, is not part of this model. Its default join time is taken to be 0.
- JavaScript numbers: timestamps are unbounded integers, and `secondsOnline` is an exact real. Floating-point rounding of the division by 1000 is not modelled.
