/**
 * The state-keeping part of the tracker core: the handler registry and
 * dispatch, the session start/stop state machine, the entry points that
 * add outfits and players, player registration with its subscribe command,
 * and the duplicate-frame window of the tracked event stream.
 *
 * Wall-clock reads are the `now` parameters. The external lookup API is
 * represented by the `lookups` it is asked for and by the callback methods
 * that receive its resolved data. The tracked socket is an open flag plus
 * the `sent` outbox; `processed` lists the frames handed on for parsing.
 */
module Core {
  import opened Wrappers
  import opened Events
  import opened Text
  import opened Registry

  datatype TimeTracking = TimeTracking(running: bool, startTime: int, endTime: int)

  /** The subscribe command sent on the tracked socket (JSON-encoded there). */
  datatype SubscribeCommand = SubscribeCommand(
    action: string, characters: seq<string>, eventNames: seq<string>, service: string)

  /** The upstream event categories requested by every subscribe command. */
  const SubscribedEventNames: seq<string> :=
    ["GainExperience", "AchievementEarned", "Death", "FacilityControl", "ItemAdded", "VehicleDestroy"]

  function SubscribeTo(ids: seq<string>): (cmd: SubscribeCommand)
    ensures cmd.action == "subscribe" && cmd.service == "event"
    ensures cmd.characters == ids && cmd.eventNames == SubscribedEventNames
  {
    SubscribeCommand("subscribe", ids, SubscribedEventNames, "event")
  }

  /** A request issued to the external lookup API. */
  datatype Lookup = OutfitByTag(tag: string) | CharactersByTag(tag: string) | CharacterByName(name: string)

  /** The part of the core's state that registration reads and writes. */
  datatype Roster = Roster(characters: seq<Character>, stats: map<string, TrackedPlayer>, sent: seq<SubscribeCommand>)

  /** The roster invariant: records keyed by id, one per tracked character, characters sorted by name. */
  predicate Consistent(r: Roster)
  {
    KeyedById(r.stats) && IdSet(r.characters) == r.stats.Keys && SortedByName(r.characters)
  }

  /**
   * Registration of `chars` at `now` (`subscribeToEvents`). With no tracked
   * socket nothing changes. Otherwise the characters whose id is not yet
   * tracked are added: if there is none, nothing changes; else the list
   * becomes the old one plus them, sorted by name, `stats` gains a fresh
   * record for each, and one subscribe command naming their ids is sent.
   */
  function Register(r: Roster, socketOpen: bool, chars: seq<Character>, now: int): Roster
  {
    if !socketOpen then r
    else
      var added := Untracked(chars, r.characters);
      if added == [] then r
      else Roster(SortByName(r.characters + added), Registered(r.stats, added, now),
                  r.sent + [SubscribeTo(Ids(added))])
  }

  /** Registration keeps the roster invariant and never alters an existing record. */
  lemma RegisterConsistent(r: Roster, socketOpen: bool, chars: seq<Character>, now: int)
    requires Consistent(r)
    ensures Consistent(Register(r, socketOpen, chars, now))
    ensures forall id :: id in r.stats ==>
      id in Register(r, socketOpen, chars, now).stats && Register(r, socketOpen, chars, now).stats[id] == r.stats[id]
  {
    if socketOpen {
      RegisterKeepsRegistry(r.characters, r.stats, chars, now);
    }
  }

  /**
   * The tracked list afterwards holds the old characters plus exactly the
   * new ones, and the keys of `stats` grow by exactly their ids.
   */
  lemma RegisterAdds(r: Roster, socketOpen: bool, chars: seq<Character>, now: int)
    requires Consistent(r)
    ensures var added := if socketOpen then Untracked(chars, r.characters) else [];
      && multiset(Register(r, socketOpen, chars, now).characters) == multiset(r.characters) + multiset(added)
      && Register(r, socketOpen, chars, now).stats.Keys == r.stats.Keys + IdSet(added)
      && (socketOpen ==> forall c :: c in added <==> c in chars && c.id !in r.stats)
  {
    if !socketOpen {
      assert IdSet([]) == {};
    } else {
      var added := Untracked(chars, r.characters);
      RegisterKeepsRegistry(r.characters, r.stats, chars, now);
      RegisteredFrame(r.stats, added, now);
      forall c ensures c in added <==> c in chars && c.id !in r.stats {
        IdsMembership(r.characters, c.id);
      }
    }
  }

  /** Distinct ids stay distinct when the batch itself has no repeated id. */
  lemma RegisterDistinct(r: Roster, socketOpen: bool, chars: seq<Character>, now: int)
    requires DistinctIds(r.characters) && DistinctIds(chars)
    ensures DistinctIds(Register(r, socketOpen, chars, now).characters)
  {
    if socketOpen && Untracked(chars, r.characters) != [] {
      RegisterKeepsDistinct(r.characters, chars);
    }
  }

  /**
   * A new player's record is built from its character: it joins at `now`
   * if the character is online, and otherwise keeps the default join time.
   * A batch may repeat an id (nothing in the roster lookup rules it out):
   * every copy of an untracked id passes the filter, and the record kept is
   * the one built from the last copy in the batch.
   */
  lemma RegisterNewRecords(r: Roster, socketOpen: bool, chars: seq<Character>, now: int)
    requires socketOpen
    ensures forall c :: c in Untracked(chars, r.characters) ==>
      && c.id in IdSet(chars)
      && c.id in Register(r, socketOpen, chars, now).stats
      && Register(r, socketOpen, chars, now).stats[c.id] == NewPlayer(chars[LastIndexOf(chars, c.id)], now)
    ensures DistinctIds(chars) ==> forall c :: c in Untracked(chars, r.characters) ==>
      && c.id in Register(r, socketOpen, chars, now).stats
      && Register(r, socketOpen, chars, now).stats[c.id] == NewPlayer(c, now)
  {
    var added := Untracked(chars, r.characters);
    forall c | c in added
      ensures c.id in IdSet(chars)
      ensures c.id in Register(r, socketOpen, chars, now).stats
      ensures Register(r, socketOpen, chars, now).stats[c.id] == NewPlayer(chars[LastIndexOf(chars, c.id)], now)
    {
      assert c.id in IdSet(added);
      UntrackedLast(chars, r.characters, c.id);
      RegisteredLast(r.stats, added, now, c.id);
    }
    if DistinctIds(chars) && added != [] {
      UntrackedDistinct(chars, r.characters);
      RegisteredEntries(r.stats, added, now);
    }
  }

  /** On an empty roster every character of the batch is new. */
  lemma RegisterOnEmpty(batch: seq<Character>, now: int)
    requires batch != []
    ensures var r' := Register(Roster([], map[], []), true, batch, now);
      r'.characters == SortByName(batch) && r'.stats == Registered(map[], batch, now)
  {
    assert Untracked(batch, []) == batch by {
      UntrackedNothingTracked(batch);
    }
    assert [] + batch == batch;
  }

  /**
   * A roster batch that lists one id twice, first online and then offline:
   * both copies are tracked in the list, and the one record kept is the
   * offline copy's, which joins at the default time, not at `now`.
   */
  lemma RegisterRepeatedId(on: Character, off: Character, now: int)
    requires on.id == off.id && on.online && !off.online
    ensures var r' := Register(Roster([], map[], []), true, [on, off], now);
      && multiset(r'.characters) == multiset{on, off}
      && r'.stats == map[on.id := NewPlayer(off, now)]
      && r'.stats[on.id].joinTime == DefaultJoinTime
      && (now != DefaultJoinTime ==> r'.stats[on.id].joinTime != NewPlayer(on, now).joinTime)
  {
    var batch := [on, off];
    RegisterOnEmpty(batch, now);
    SortByNamePermutes(batch);
    RegisteredSameIdTwice(map[], on, off, now);
  }

  /**
   * Exactly one subscribe command is sent, naming the new ids in input
   * order with the fixed event names, when the socket is open and some id
   * is new; otherwise nothing is sent.
   */
  lemma RegisterSends(r: Roster, socketOpen: bool, chars: seq<Character>, now: int)
    ensures var added := Untracked(chars, r.characters);
      Register(r, socketOpen, chars, now).sent ==
        if socketOpen && added != [] then r.sent + [SubscribeTo(Ids(added))] else r.sent
  {
  }

  /** Registering the same batch again, at any time, changes nothing: tracked ids are never re-subscribed. */
  lemma RegisterIdempotent(r: Roster, socketOpen: bool, chars: seq<Character>, now: int, later: int)
    requires Consistent(r)
    ensures var r' := Register(r, socketOpen, chars, now);
      Register(r', socketOpen, chars, later) == r'
  {
    var r' := Register(r, socketOpen, chars, now);
    if socketOpen {
      RegisterAdds(r, socketOpen, chars, now);
      RegisterConsistent(r, socketOpen, chars, now);
      var again := Untracked(chars, r'.characters);
      if again != [] {
        var c := again[0];
        assert c in chars && c.id !in Ids(r'.characters);
        IdsMembership(r'.characters, c.id);
        assert false;
      }
    }
  }

  datatype LoadState = Loading | Loaded

  /** The completion handle returned by `addOutfit` and `addPlayer`. */
  class Handle {
    var state: LoadState

    constructor (state: LoadState)
      ensures this.state == state
    {
      this.state := state;
    }
  }

  class Core {
    const serviceID: string

    /** For each event kind, its handlers in registration order. */
    var handlers: map<EventKind, seq<HandlerId>>
    var tracking: TimeTracking
    var stats: map<string, TrackedPlayer>
    var outfits: seq<string>
    /** The tracked characters, kept sorted by name. */
    var characters: seq<Character>
    var socketMessageQueue: seq<string>

    /** Whether `sockets.tracked` is set (non-null). */
    var trackedSocketOpen: bool
    /** Frames sent on the tracked socket. */
    var sent: seq<SubscribeCommand>
    /** Frames passed on to message processing. */
    var processed: seq<string>
    /** Requests made to the lookup API. */
    var lookups: seq<Lookup>

    ghost predicate Valid()
      reads this
    {
      && handlers.Keys == AllKinds
      && Consistent(Roster(characters, stats, sent))
    }

    constructor (serviceID: string, now: int)
      ensures Valid()
      ensures this.serviceID == serviceID
      ensures handlers.Keys == AllKinds && forall k :: k in handlers ==> handlers[k] == []
      ensures tracking == TimeTracking(false, now, now)
      ensures stats == map[] && outfits == [] && characters == [] && socketMessageQueue == []
      ensures !trackedSocketOpen && sent == [] && processed == [] && lookups == []
    {
      this.serviceID := serviceID;
      handlers := map k | k in AllKinds :: [];
      tracking := TimeTracking(false, now, now);
      stats := map[];
      outfits := [];
      characters := [];
      socketMessageQueue := [];
      trackedSocketOpen := false;
      sent := [];
      processed := [];
      lookups := [];
    }

    /**
     * Runs every handler registered for the event's kind, in registration
     * order, each once with `e`; returns the handlers in the order run.
     */
    method Emit(e: Event) returns (invoked: seq<HandlerId>)
      requires Valid()
      ensures e.kind in handlers && invoked == handlers[e.kind]
    {
      AllKindsComplete(e.kind);
      var list := handlers[e.kind];
      invoked := [];
      var i := 0;
      while i < |list|
        invariant 0 <= i <= |list|
        invariant invoked == list[..i]
      {
        invoked := invoked + [list[i]];
        i := i + 1;
      }
    }

    /**
     * Registers handler `h` under the tag `kind`. An unknown tag throws and
     * changes nothing. A known tag appends `h` to exactly one list,
     * `ListFor` of its kind: note that a `teamkill` handler lands on the
     * `death` list, as the source is written.
     */
    method On(kind: string, h: HandlerId) returns (outcome: Outcome<string>)
      requires Valid()
      modifies this`handlers
      ensures Valid()
      ensures ParseKind(kind).None? ==>
        outcome == Fail("Unchecked event type " + kind) && handlers == old(handlers)
      ensures ParseKind(kind).Some? ==>
        var target := ListFor(ParseKind(kind).value);
        && outcome == Pass
        && handlers[target] == old(handlers)[target] + [h]
        && forall k :: k != target ==> handlers[k] == old(handlers)[k]
    {
      match ParseKind(kind)
      case None =>
        outcome := Fail("Unchecked event type " + kind);
      case Some(k) =>
        var target := ListFor(k);
        handlers := handlers[target := handlers[target] + [h]];
        outcome := Pass;
    }

    /** Starts tracking: running from `now`, and every tracked player joins at `now`. */
    method Start(now: int)
      requires Valid()
      modifies this`tracking, this`stats
      ensures Valid()
      ensures tracking == old(tracking).(running := true, startTime := now)
      ensures stats.Keys == old(stats).Keys
      ensures forall id :: id in stats ==> stats[id] == old(stats)[id].(joinTime := now)
    {
      tracking := tracking.(running := true, startTime := now);
      var pending := stats.Keys;
      while pending != {}
        invariant pending <= stats.Keys
        invariant stats.Keys == old(stats).Keys
        invariant tracking == old(tracking).(running := true, startTime := now)
        invariant forall id :: id in stats ==>
          stats[id] == if id in pending then old(stats)[id] else old(stats)[id].(joinTime := now)
        decreases pending
      {
        var id :| id in pending;
        stats := stats[id := stats[id].(joinTime := now)];
        pending := pending - {id};
      }
    }

    /**
     * Stops tracking: the end time becomes `now` only if tracking was
     * running, running is cleared, and every player's join time and online
     * time are derived from its recorded events (`Stopped`).
     */
    method Stop(now: int)
      requires Valid()
      modifies this`tracking, this`stats
      ensures Valid()
      ensures !tracking.running && tracking.startTime == old(tracking).startTime
      ensures tracking.endTime == if old(tracking).running then now else old(tracking).endTime
      ensures stats.Keys == old(stats).Keys
      ensures forall id :: id in stats ==> stats[id] == Stopped(old(stats)[id])
    {
      if tracking.running {
        tracking := tracking.(endTime := now);
      }
      tracking := tracking.(running := false);
      var pending := stats.Keys;
      while pending != {}
        invariant pending <= stats.Keys
        invariant stats.Keys == old(stats).Keys
        invariant !tracking.running && tracking.startTime == old(tracking).startTime
        invariant tracking.endTime == if old(tracking).running then now else old(tracking).endTime
        invariant forall id :: id in stats ==>
          stats[id] == if id in pending then old(stats)[id] else Stopped(old(stats)[id])
        decreases pending
      {
        var id :| id in pending;
        var player := stats[id];
        if |player.events| > 0 {
          var first := player.events[0];
          var last := player.events[|player.events| - 1];
          player := player.(joinTime := first.timestamp);
          player := player.(secondsOnline := (last.timestamp - first.timestamp) as real / 1000.0);
        } else {
          player := player.(secondsOnline := 0.0);
        }
        assert player == Stopped(old(stats)[id]);
        stats := stats[id := player];
        pending := pending - {id};
      }
    }

    /**
     * Begins tracking an outfit by tag. A blank tag yields a handle that is
     * already loaded and does nothing else; otherwise the outfit and its
     * roster are looked up and the handle is loading until the roster
     * arrives (`OnRosterResolved`).
     */
    method AddOutfit(tag: string) returns (handle: Handle)
      modifies this`lookups
      ensures fresh(handle)
      ensures IsBlank(tag) ==> handle.state == Loaded && lookups == old(lookups)
      ensures !IsBlank(tag) ==>
        handle.state == Loading && lookups == old(lookups) + [OutfitByTag(tag), CharactersByTag(tag)]
    {
      handle := new Handle(Loading);
      TrimEmptyIffBlank(tag);
      if |Trim(tag)| == 0 {
        handle.state := Loaded;
        return;
      }
      lookups := lookups + [OutfitByTag(tag)];
      lookups := lookups + [CharactersByTag(tag)];
    }

    /** The outfit lookup's success callback: records the outfit's id. */
    method OnOutfitResolved(outfitID: string)
      modifies this`outfits
      ensures outfits == old(outfits) + [outfitID]
    {
      outfits := outfits + [outfitID];
    }

    /** The roster lookup's success callback: registers the members, then completes the handle. */
    method OnRosterResolved(handle: Handle, members: seq<Character>, now: int)
      requires Valid()
      modifies this`characters, this`stats, this`sent, handle
      ensures Valid()
      ensures handle.state == Loaded
      ensures RosterOf() == Register(old(RosterOf()), trackedSocketOpen, members, now)
    {
      SubscribeToEvents(members, now);
      handle.state := Loaded;
    }

    /**
     * Begins tracking a player by name. A blank name yields a handle that
     * is already loaded and does nothing else; otherwise the player is
     * looked up and the handle stays loading: the lookup's callback
     * (`OnPlayerResolved`) never completes it.
     */
    method AddPlayer(name: string) returns (handle: Handle)
      modifies this`lookups
      ensures fresh(handle)
      ensures IsBlank(name) ==> handle.state == Loaded && lookups == old(lookups)
      ensures !IsBlank(name) ==> handle.state == Loading && lookups == old(lookups) + [CharacterByName(name)]
    {
      handle := new Handle(Loading);
      TrimEmptyIffBlank(name);
      if |Trim(name)| == 0 {
        handle.state := Loaded;
        return;
      }
      lookups := lookups + [CharacterByName(name)];
    }

    /** The player lookup's success callback: registers the one character. */
    method OnPlayerResolved(character: Character, now: int)
      requires Valid()
      modifies this`characters, this`stats, this`sent
      ensures Valid()
      ensures RosterOf() == Register(old(RosterOf()), trackedSocketOpen, [character], now)
    {
      SubscribeToEvents([character], now);
    }

    function RosterOf(): Roster
      reads this
    {
      Roster(characters, stats, sent)
    }

    /** Registers `chars` (the private `subscribeToEvents`). */
    method SubscribeToEvents(chars: seq<Character>, now: int)
      requires Valid()
      modifies this`characters, this`stats, this`sent
      ensures Valid()
      ensures RosterOf() == Register(old(RosterOf()), trackedSocketOpen, chars, now)
    {
      ghost var before := RosterOf();
      if !trackedSocketOpen {
        return;
      }
      var added := Untracked(chars, characters);
      if |added| == 0 {
        return;
      }
      characters := SortByName(characters + added);
      InsertPlayers(added, now);
      sent := sent + [SubscribeTo(Ids(added))];
      assert RosterOf() == Register(before, true, chars, now);
      RegisterConsistent(before, true, chars, now);
    }

    /** The `forEach` of `subscribeToEvents`: one fresh record per character, inserted in order. */
    method InsertPlayers(added: seq<Character>, now: int)
      modifies this`stats
      ensures stats == Registered(old(stats), added, now)
    {
      var i := 0;
      while i < |added|
        invariant 0 <= i <= |added|
        invariant stats == Registered(old(stats), added[..i], now)
      {
        assert added[..i + 1] == added[..i] + [added[i]];
        RegisteredSnoc(old(stats), added[..i], added[i], now);
        stats := stats[added[i].id := NewPlayer(added[i], now)];
        i := i + 1;
      }
      assert added[..|added|] == added;
    }

    /**
     * Handles one frame of the tracked socket. A frame equal to one in the
     * window is dropped. Any other frame is pushed onto the window, the
     * oldest entry is shifted out (so the window keeps its length, and an
     * empty window stays empty), and the frame is passed on.
     */
    method OnMessage(frame: string)
      modifies this`socketMessageQueue, this`processed
      ensures frame in old(socketMessageQueue) ==>
        socketMessageQueue == old(socketMessageQueue) && processed == old(processed)
      ensures frame !in old(socketMessageQueue) ==>
        && socketMessageQueue == (old(socketMessageQueue) + [frame])[1..]
        && processed == old(processed) + [frame]
      ensures |socketMessageQueue| == |old(socketMessageQueue)|
      ensures frame !in old(socketMessageQueue) && old(socketMessageQueue) != [] ==>
        socketMessageQueue == old(socketMessageQueue)[1..] + [frame] && frame in socketMessageQueue
    {
      var i := 0;
      while i < |socketMessageQueue|
        invariant 0 <= i <= |socketMessageQueue|
        invariant forall j :: 0 <= j < i ==> socketMessageQueue[j] != frame
      {
        if socketMessageQueue[i] == frame {
          return;
        }
        i := i + 1;
      }
      socketMessageQueue := socketMessageQueue + [frame];
      socketMessageQueue := socketMessageQueue[1..];
      processed := processed + [frame];
    }
  }

  // -----------------------------------------------------------------------
  // Scenarios: what a caller of the core observes, derived from the
  // contracts above alone.

  /** Three `kill` handlers registered in order run in that order, each once. */
  method DispatchInRegistrationOrder() returns (invoked: seq<HandlerId>)
    ensures invoked == [1, 2, 3]
  {
    var core := new Core("service", 0);
    var o1 := core.On("kill", 1);
    var o2 := core.On("kill", 2);
    var o3 := core.On("kill", 3);
    invoked := core.Emit(Event(Kill, 0));
  }

  /**
   * A handler registered for `teamkill` is never run for a teamkill event,
   * but is run for a death event; an unknown tag is refused.
   */
  method TeamkillHandlerOnDeathList() returns (onTeamkill: seq<HandlerId>, onDeath: seq<HandlerId>, unknown: Outcome<string>)
    ensures onTeamkill == [] && onDeath == [7]
    ensures unknown == Fail("Unchecked event type heal")
  {
    var core := new Core("service", 0);
    var registered := core.On("teamkill", 7);
    onTeamkill := core.Emit(Event(Teamkill, 10));
    onDeath := core.Emit(Event(Death, 11));
    assert ParseKind("heal") == None;
    assert "Unchecked event type " + "heal" == "Unchecked event type heal";
    unknown := core.On("heal", 8);
  }

  const TwoPlayers: seq<Character> :=
    [Character("p1", "Bravo", "VS", "TAG", true), Character("p2", "Alpha", "VS", "TAG", false)]

  /** Registering two new players on an empty roster tracks both and sends one command naming both. */
  lemma RegisterTwoPlayers(now: int)
    ensures Register(Roster([], map[], []), true, TwoPlayers, now).sent
              == [SubscribeCommand("subscribe", ["p1", "p2"], SubscribedEventNames, "event")]
    ensures Register(Roster([], map[], []), true, TwoPlayers, now).stats.Keys == {"p1", "p2"}
  {
    UntrackedNothingTracked(TwoPlayers);
    assert Ids(TwoPlayers) == ["p1", "p2"];
    assert IdSet(TwoPlayers) == {"p1", "p2"} by {
      assert TwoPlayers[0] in TwoPlayers && TwoPlayers[1] in TwoPlayers;
    }
    RegisteredFrame(map[], TwoPlayers, now);
  }

  /**
   * Registering two new players on an open socket sends one command naming
   * both; registering them again later sends nothing more.
   */
  method SubscribeTwoPlayers() returns (sent: seq<SubscribeCommand>, tracked: set<string>)
    ensures sent == [SubscribeCommand("subscribe", ["p1", "p2"], SubscribedEventNames, "event")]
    ensures tracked == {"p1", "p2"}
  {
    var core := new Core("service", 0);
    core.trackedSocketOpen := true;
    RegisterTwoPlayers(500);
    RegisterIdempotent(Roster([], map[], []), true, TwoPlayers, 500, 900);
    core.SubscribeToEvents(TwoPlayers, 500);
    core.SubscribeToEvents(TwoPlayers, 900);
    sent := core.sent;
    tracked := core.stats.Keys;
  }

  /**
   * With a two-frame window, a frame already in it is dropped and a new
   * one slides it along; with the initial empty window nothing is
   * retained, so a repeated frame is passed on again.
   */
  method DedupWindow() returns (windowed: seq<string>, unwindowed: seq<string>)
    ensures windowed == ["b", "c"]
    ensures unwindowed == ["x", "x"]
  {
    var core := new Core("service", 0);
    core.socketMessageQueue := ["a", "b"];
    core.OnMessage("a");
    core.OnMessage("c");
    windowed := core.socketMessageQueue;
    assert core.processed == ["c"];

    var initial := new Core("service", 0);
    initial.OnMessage("x");
    initial.OnMessage("x");
    unwindowed := initial.processed;
  }
}
