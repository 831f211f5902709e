/**
 * The tracked-player registry: the characters returned by the lookup API,
 * the per-player record kept in `stats`, and the pure steps of registration
 * (filter out already tracked ids, sort by name, insert new records) and of
 * the session stop (derive join time and online time from recorded events).
 */
module Registry {
  import opened Events
  import opened Text

  /** A character as resolved by the lookup API. */
  datatype Character = Character(id: string, name: string, faction: string, outfitTag: string, online: bool)

  /** The per-player record held in `stats`; `events` are this player's events in arrival order. */
  datatype TrackedPlayer = TrackedPlayer(
    characterID: string, name: string, faction: string, outfitTag: string,
    joinTime: int, secondsOnline: real, events: seq<Event>)

  /** The join time a freshly constructed record carries before anything sets it. */
  const DefaultJoinTime: int := 0

  // ---------------------------------------------------------------------
  // Identity keys

  /** `chars.map((c) => c.ID)`. */
  function Ids(cs: seq<Character>): (ids: seq<string>)
    ensures |ids| == |cs|
    ensures forall i :: 0 <= i < |cs| ==> ids[i] == cs[i].id
  {
    if cs == [] then [] else [cs[0].id] + Ids(cs[1..])
  }

  function IdSet(cs: seq<Character>): set<string>
  {
    set c | c in cs :: c.id
  }

  lemma IdsMembership(cs: seq<Character>, id: string)
    ensures id in Ids(cs) <==> id in IdSet(cs)
  {
    if id in Ids(cs) {
      var i :| 0 <= i < |cs| && Ids(cs)[i] == id;
      assert cs[i] in cs;
    }
    if id in IdSet(cs) {
      var c :| c in cs && c.id == id;
      var i :| 0 <= i < |cs| && cs[i] == c;
      assert Ids(cs)[i] == id;
    }
  }

  /** No two entries share an id. */
  predicate DistinctIds(cs: seq<Character>)
  {
    forall i, j :: 0 <= i < j < |cs| ==> cs[i].id != cs[j].id
  }

  /** Every record is stored under its own character id. */
  predicate KeyedById(m: map<string, TrackedPlayer>)
  {
    forall id :: id in m ==> m[id].characterID == id
  }

  // ---------------------------------------------------------------------
  // The duplicate filter

  /**
   * `chars.filter(c => tracked.map(t => t.ID).indexOf(c.ID) == -1)`:
   * the characters whose id is not yet tracked, in input order.
   */
  function Untracked(chars: seq<Character>, tracked: seq<Character>): (r: seq<Character>)
    ensures |r| <= |chars|
    ensures forall c :: c in r <==> c in chars && c.id !in Ids(tracked)
  {
    if chars == [] then []
    else if chars[0].id in Ids(tracked) then Untracked(chars[1..], tracked)
    else [chars[0]] + Untracked(chars[1..], tracked)
  }

  /** With nothing tracked, the filter keeps the whole batch. */
  lemma {:induction false} UntrackedNothingTracked(chars: seq<Character>)
    ensures Untracked(chars, []) == chars
  {
    if chars != [] {
      UntrackedNothingTracked(chars[1..]);
      assert chars == [chars[0]] + chars[1..];
    }
  }

  /** The filter keeps input order: filtering a concatenation concatenates the filtered parts. */
  lemma {:induction false} UntrackedAppend(a: seq<Character>, b: seq<Character>, tracked: seq<Character>)
    ensures Untracked(a + b, tracked) == Untracked(a, tracked) + Untracked(b, tracked)
  {
    if a != [] {
      assert (a + b)[1..] == a[1..] + b;
      UntrackedAppend(a[1..], b, tracked);
    } else {
      assert a + b == b;
    }
  }

  /** A batch without repeated ids stays without repeated ids after filtering. */
  lemma {:induction false} UntrackedDistinct(chars: seq<Character>, tracked: seq<Character>)
    requires DistinctIds(chars)
    ensures DistinctIds(Untracked(chars, tracked))
  {
    if chars != [] {
      var rest := Untracked(chars[1..], tracked);
      UntrackedDistinct(chars[1..], tracked);
      if chars[0].id !in Ids(tracked) {
        var r := [chars[0]] + rest;
        forall i, j | 0 <= i < j < |r| ensures r[i].id != r[j].id {
          if i == 0 {
            assert r[j] in chars[1..];
            var k :| 0 <= k < |chars[1..]| && chars[1..][k] == r[j];
            assert chars[k + 1] == r[j];
          }
        }
      }
    }
  }

  /**
   * Appending the filtered batch to a list of distinct ids keeps the ids
   * distinct, provided the batch itself has no repeated id.
   */
  lemma AppendUntrackedDistinct(tracked: seq<Character>, chars: seq<Character>)
    requires DistinctIds(tracked) && DistinctIds(chars)
    ensures DistinctIds(tracked + Untracked(chars, tracked))
  {
    var added := Untracked(chars, tracked);
    UntrackedDistinct(chars, tracked);
    var all := tracked + added;
    forall i, j | 0 <= i < j < |all| ensures all[i].id != all[j].id {
      if i < |tracked| && j >= |tracked| {
        assert all[j] in added;
        assert Ids(tracked)[i] == all[i].id;
      } else if i >= |tracked| {
        assert all[i] == added[i - |tracked|] && all[j] == added[j - |tracked|];
      }
    }
  }

  // ---------------------------------------------------------------------
  // Sorting by display name

  predicate SortedByName(cs: seq<Character>)
  {
    forall i, j :: 0 <= i < j < |cs| ==> NameLe(cs[i].name, cs[j].name)
  }

  /** Inserts `x` before the first entry whose name is not below it. */
  function InsertByName(x: Character, s: seq<Character>): seq<Character>
  {
    if s == [] || NameLe(x.name, s[0].name) then [x] + s
    else [s[0]] + InsertByName(x, s[1..])
  }

  /**
   * `cs.sort((a, b) => a.name.localeCompare(b.name))`, as an insertion sort;
   * the result is a permutation of the input.
   */
  function SortByName(cs: seq<Character>): seq<Character>
  {
    if cs == [] then [] else InsertByName(cs[0], SortByName(cs[1..]))
  }

  lemma {:induction false} InsertByNamePermutes(x: Character, s: seq<Character>)
    ensures multiset(InsertByName(x, s)) == multiset(s) + multiset{x}
  {
    if s != [] && !NameLe(x.name, s[0].name) {
      assert s == [s[0]] + s[1..];
      InsertByNamePermutes(x, s[1..]);
    }
  }

  /** Sorting only reorders: the result holds the same characters, each as often. */
  lemma {:induction false} SortByNamePermutes(cs: seq<Character>)
    ensures multiset(SortByName(cs)) == multiset(cs)
  {
    if cs != [] {
      assert cs == [cs[0]] + cs[1..];
      SortByNamePermutes(cs[1..]);
      InsertByNamePermutes(cs[0], SortByName(cs[1..]));
    }
  }

  lemma {:induction false} InsertByNameSorted(x: Character, s: seq<Character>)
    requires SortedByName(s)
    ensures SortedByName(InsertByName(x, s))
  {
    var r := InsertByName(x, s);
    if s == [] || NameLe(x.name, s[0].name) {
      forall j | 1 <= j < |r| ensures NameLe(x.name, r[j].name) {
        if j > 1 {
          NameLeTransitive(x.name, s[0].name, s[j - 1].name);
        }
      }
    } else {
      NameLeTotal(x.name, s[0].name);
      var t := InsertByName(x, s[1..]);
      InsertByNameSorted(x, s[1..]);
      InsertByNamePermutes(x, s[1..]);
      forall j | 0 <= j < |t| ensures NameLe(s[0].name, t[j].name) {
        assert t[j] in multiset(t);
        if t[j] != x {
          assert t[j] in s[1..];
          var k :| 0 <= k < |s[1..]| && s[1..][k] == t[j];
          assert s[k + 1] == t[j];
        }
      }
    }
  }

  /** The sorted list is ordered by name. */
  lemma {:induction false} SortByNameSorted(cs: seq<Character>)
    ensures SortedByName(SortByName(cs))
  {
    if cs != [] {
      SortByNameSorted(cs[1..]);
      InsertByNameSorted(cs[0], SortByName(cs[1..]));
    }
  }

  lemma {:induction false} InsertByNameDistinct(x: Character, s: seq<Character>)
    requires DistinctIds(s) && x.id !in IdSet(s)
    ensures DistinctIds(InsertByName(x, s))
  {
    var r := InsertByName(x, s);
    if s == [] || NameLe(x.name, s[0].name) {
      forall j | 1 <= j < |r| ensures r[0].id != r[j].id {
        assert r[j] == s[j - 1];
      }
    } else {
      var t := InsertByName(x, s[1..]);
      InsertByNamePermutes(x, s[1..]);
      assert IdSet(s[1..]) <= IdSet(s);
      InsertByNameDistinct(x, s[1..]);
      forall j | 0 <= j < |t| ensures s[0].id != t[j].id {
        assert t[j] in multiset(t);
        if t[j] != x {
          assert t[j] in s[1..];
          var k :| 0 <= k < |s[1..]| && s[1..][k] == t[j];
          assert s[k + 1] == t[j];
        } else {
          assert s[0] in s;
        }
      }
      forall i, j | 0 <= i < j < |r| ensures r[i].id != r[j].id {
        if i == 0 {
          assert r[j] == t[j - 1];
        } else {
          assert r[i] == t[i - 1] && r[j] == t[j - 1];
        }
      }
    }
  }

  /** Sorting neither creates nor merges ids. */
  lemma {:induction false} SortByNameDistinct(cs: seq<Character>)
    requires DistinctIds(cs)
    ensures DistinctIds(SortByName(cs))
  {
    if cs != [] {
      var rest := SortByName(cs[1..]);
      SortByNameDistinct(cs[1..]);
      SortByNamePermutes(cs[1..]);
      IdSetOfPermutation(rest, cs[1..]);
      assert cs[0].id !in IdSet(cs[1..]) by {
        forall c | c in cs[1..] ensures c.id != cs[0].id {
          var k :| 0 <= k < |cs[1..]| && cs[1..][k] == c;
          assert cs[k + 1] == c;
        }
      }
      InsertByNameDistinct(cs[0], rest);
    }
  }

  /** A permutation tracks the same set of ids. */
  lemma IdSetOfPermutation(a: seq<Character>, b: seq<Character>)
    requires multiset(a) == multiset(b)
    ensures IdSet(a) == IdSet(b)
  {
    forall id | id in IdSet(a) ensures id in IdSet(b) {
      var c :| c in a && c.id == id;
      assert c in multiset(b);
    }
    forall id | id in IdSet(b) ensures id in IdSet(a) {
      var c :| c in b && c.id == id;
      assert c in multiset(a);
    }
  }

  // ---------------------------------------------------------------------
  // Records for newly registered players

  /** The record built for a newly registered character at time `now`. */
  function NewPlayer(c: Character, now: int): (p: TrackedPlayer)
    ensures p.characterID == c.id && p.name == c.name && p.faction == c.faction && p.outfitTag == c.outfitTag
    ensures c.online ==> p.joinTime == now
    ensures !c.online ==> p.joinTime == DefaultJoinTime
    ensures p.secondsOnline == 0.0 && p.events == []
  {
    TrackedPlayer(c.id, c.name, c.faction, c.outfitTag,
                  if c.online then now else DefaultJoinTime, 0.0, [])
  }

  /**
   * `cs.forEach(c => stats.set(c.ID, NewPlayer(c)))`: the stats map after
   * inserting one record per character, in order (a later entry with the
   * same id overwrites an earlier one).
   */
  function Registered(m: map<string, TrackedPlayer>, cs: seq<Character>, now: int): map<string, TrackedPlayer>
  {
    if cs == [] then m
    else Registered(m, cs[..|cs| - 1], now)[cs[|cs| - 1].id := NewPlayer(cs[|cs| - 1], now)]
  }

  /**
   * Inserting a batch adds exactly the batch's ids as keys, leaves every
   * other existing record alone, and keeps records keyed by their ids.
   */
  lemma {:induction false} RegisteredFrame(m: map<string, TrackedPlayer>, cs: seq<Character>, now: int)
    ensures Registered(m, cs, now).Keys == m.Keys + IdSet(cs)
    ensures forall id :: id in m && id !in IdSet(cs) ==> Registered(m, cs, now)[id] == m[id]
    ensures KeyedById(m) ==> KeyedById(Registered(m, cs, now))
  {
    if cs != [] {
      var init := cs[..|cs| - 1];
      assert cs == init + [cs[|cs| - 1]];
      assert IdSet(cs) == IdSet(init) + {cs[|cs| - 1].id};
      RegisteredFrame(m, init, now);
    }
  }

  /** Inserting one more character adds (or overwrites) exactly its record. */
  lemma RegisteredSnoc(m: map<string, TrackedPlayer>, cs: seq<Character>, c: Character, now: int)
    ensures Registered(m, cs + [c], now) == Registered(m, cs, now)[c.id := NewPlayer(c, now)]
  {
    assert (cs + [c])[..|cs + [c]| - 1] == cs;
  }

  /** Of two characters with the same id, the second one's record is the one kept. */
  lemma RegisteredSameIdTwice(m: map<string, TrackedPlayer>, a: Character, b: Character, now: int)
    requires a.id == b.id
    ensures Registered(m, [a, b], now) == m[a.id := NewPlayer(b, now)]
  {
    assert [a, b][..1] == [a] && [a][..0] == [];
    assert Registered(m, [a], now) == m[a.id := NewPlayer(a, now)];
    assert Registered(m, [a, b], now) == m[a.id := NewPlayer(a, now)][b.id := NewPlayer(b, now)];
  }

  /** With distinct ids in the batch, every character of the batch ends up with its own fresh record. */
  lemma {:induction false} RegisteredEntry(m: map<string, TrackedPlayer>, cs: seq<Character>, now: int, i: nat)
    requires DistinctIds(cs) && i < |cs|
    ensures cs[i].id in Registered(m, cs, now)
    ensures Registered(m, cs, now)[cs[i].id] == NewPlayer(cs[i], now)
  {
    var n := |cs| - 1;
    if i < n {
      var init := cs[..n];
      assert init[i] == cs[i];
      RegisteredEntry(m, init, now, i);
    }
  }

  // ---------------------------------------------------------------------
  // One registration step

  /** No character of the filtered batch is already a key of a map keyed by the tracked ids. */
  lemma UntrackedAreNew(tracked: seq<Character>, m: map<string, TrackedPlayer>, chars: seq<Character>)
    requires IdSet(tracked) == m.Keys
    ensures forall id :: id in IdSet(Untracked(chars, tracked)) ==> id !in m
  {
    forall id | id in IdSet(Untracked(chars, tracked)) ensures id !in m {
      IdsMembership(tracked, id);
    }
  }

  /**
   * Registering the filtered batch keeps the registry consistent: records
   * stay keyed by their ids, the tracked list stays sorted by name and
   * tracks exactly the keys of the map, existing records are untouched, and
   * the tracked list is the old one plus the new characters.
   */
  lemma RegisterKeepsRegistry(tracked: seq<Character>, m: map<string, TrackedPlayer>, chars: seq<Character>, now: int)
    requires KeyedById(m) && IdSet(tracked) == m.Keys
    ensures var added := Untracked(chars, tracked);
      var tracked' := SortByName(tracked + added);
      var m' := Registered(m, added, now);
      && KeyedById(m') && SortedByName(tracked') && IdSet(tracked') == m'.Keys
      && multiset(tracked') == multiset(tracked) + multiset(added)
      && (forall id :: id in m ==> id in m' && m'[id] == m[id])
  {
    var added := Untracked(chars, tracked);
    var all := tracked + added;
    UntrackedAreNew(tracked, m, chars);
    RegisteredFrame(m, added, now);
    SortByNameSorted(all);
    SortByNamePermutes(all);
    IdSetOfPermutation(SortByName(all), all);
    assert IdSet(all) == IdSet(tracked) + IdSet(added);
  }

  /** Registering a batch without repeated ids keeps the tracked ids distinct. */
  lemma RegisterKeepsDistinct(tracked: seq<Character>, chars: seq<Character>)
    requires DistinctIds(tracked) && DistinctIds(chars)
    ensures DistinctIds(SortByName(tracked + Untracked(chars, tracked)))
  {
    AppendUntrackedDistinct(tracked, chars);
    SortByNameDistinct(tracked + Untracked(chars, tracked));
  }

  /** Each character of a batch without repeated ids gets its own fresh record. */
  lemma RegisteredEntries(m: map<string, TrackedPlayer>, cs: seq<Character>, now: int)
    requires DistinctIds(cs)
    ensures forall c :: c in cs ==> c.id in Registered(m, cs, now) && Registered(m, cs, now)[c.id] == NewPlayer(c, now)
  {
    forall c | c in cs ensures c.id in Registered(m, cs, now) && Registered(m, cs, now)[c.id] == NewPlayer(c, now) {
      var k :| 0 <= k < |cs| && cs[k] == c;
      RegisteredEntry(m, cs, now, k);
    }
  }

  /** The position of the last character of `cs` whose id is `id`. */
  function LastIndexOf(cs: seq<Character>, id: string): (i: nat)
    requires id in IdSet(cs)
    ensures i < |cs| && cs[i].id == id
    ensures forall j :: i < j < |cs| ==> cs[j].id != id
  {
    var n := |cs| - 1;
    if cs[n].id == id then n
    else
      assert id in IdSet(cs[..n]) by {
        var c :| c in cs && c.id == id;
        var k :| 0 <= k < |cs| && cs[k] == c;
        assert cs[..n][k] == c;
      }
      LastIndexOf(cs[..n], id)
  }

  /**
   * Whatever the batch, each of its ids ends up holding the fresh record of
   * the last character with that id: a later `stats.set` overwrites an
   * earlier one.
   */
  lemma {:induction false} RegisteredLast(m: map<string, TrackedPlayer>, cs: seq<Character>, now: int, id: string)
    requires id in IdSet(cs)
    ensures id in Registered(m, cs, now)
    ensures Registered(m, cs, now)[id] == NewPlayer(cs[LastIndexOf(cs, id)], now)
  {
    var n := |cs| - 1;
    if cs[n].id != id {
      var init := cs[..n];
      assert id in IdSet(init) by {
        var c :| c in cs && c.id == id;
        var k :| 0 <= k < |cs| && cs[k] == c;
        assert init[k] == c;
      }
      RegisteredLast(m, init, now, id);
    }
  }

  /** Filtering a batch with one more character at its end. */
  lemma UntrackedSnoc(init: seq<Character>, last: Character, tracked: seq<Character>)
    ensures Untracked(init + [last], tracked)
      == Untracked(init, tracked) + (if last.id in Ids(tracked) then [] else [last])
  {
    UntrackedAppend(init, [last], tracked);
    assert [last][1..] == [];
  }

  /** The last position of an id after one more character is appended. */
  lemma LastIndexOfSnoc(init: seq<Character>, last: Character, id: string)
    requires id in IdSet(init + [last])
    ensures last.id == id ==> LastIndexOf(init + [last], id) == |init|
    ensures last.id != id ==>
      id in IdSet(init) && LastIndexOf(init + [last], id) == LastIndexOf(init, id)
  {
    var cs := init + [last];
    assert cs[..|init|] == init;
    if last.id != id {
      var c :| c in cs && c.id == id;
      assert c in init;
    }
  }

  /**
   * One step of `UntrackedLast`, on plain sequences: `u` is `ui` with `last`
   * appended when `keep` holds, and `chars` is `init` with `last` appended.
   */
  lemma LastOfSnocs(chars: seq<Character>, init: seq<Character>, u: seq<Character>, ui: seq<Character>,
                    last: Character, keep: bool, id: string)
    requires chars == init + [last] && u == ui + (if keep then [last] else [])
    requires id in IdSet(u) && (last.id == id ==> keep)
    requires last.id != id ==>
      id in IdSet(ui) && id in IdSet(init) && ui[LastIndexOf(ui, id)] == init[LastIndexOf(init, id)]
    ensures id in IdSet(chars)
    ensures u[LastIndexOf(u, id)] == chars[LastIndexOf(chars, id)]
  {
    LastIndexOfSnoc(init, last, id) by {
      if last.id != id {
        var c :| c in init && c.id == id;
        assert c in chars;
      }
    }
    if keep {
      LastIndexOfSnoc(ui, last, id);
    } else {
      assert u == ui;
    }
  }

  /**
   * The filter keeps every character whose id is untracked, so for such an
   * id the last filtered character with it is the last batch character with it.
   */
  lemma {:induction false} UntrackedLast(chars: seq<Character>, tracked: seq<Character>, id: string)
    requires id in IdSet(Untracked(chars, tracked))
    ensures id in IdSet(chars)
    ensures Untracked(chars, tracked)[LastIndexOf(Untracked(chars, tracked), id)] == chars[LastIndexOf(chars, id)]
  {
    var u := Untracked(chars, tracked);
    var n := |chars| - 1;
    var init, last := chars[..n], chars[n];
    var ui := Untracked(init, tracked);
    var keep := last.id !in Ids(tracked);
    assert chars == init + [last];
    UntrackedSnoc(init, last, tracked);
    if last.id == id {
      var c :| c in u && c.id == id;
      assert keep;
    } else {
      assert id in IdSet(ui) by {
        var c :| c in u && c.id == id;
        assert c in ui;
      }
      UntrackedLast(init, tracked, id);
    }
    LastOfSnocs(chars, init, u, ui, last, keep, id);
  }

  // ---------------------------------------------------------------------
  // Session stop

  /** Timestamps are non-decreasing in arrival order. */
  predicate Chronological(events: seq<Event>)
  {
    forall i, j :: 0 <= i <= j < |events| ==> events[i].timestamp <= events[j].timestamp
  }

  /**
   * The record after `stop`: with at least one event, the join time is the
   * first event's timestamp and the online time is the span from the first
   * to the last event in seconds; with none, the online time is zero.
   */
  function Stopped(p: TrackedPlayer): TrackedPlayer
  {
    if |p.events| > 0 then
      p.(joinTime := p.events[0].timestamp,
         secondsOnline := (p.events[|p.events| - 1].timestamp - p.events[0].timestamp) as real / 1000.0)
    else
      p.(secondsOnline := 0.0)
  }

  /** The online time derived at stop is the event span in seconds, never negative for chronological events. */
  lemma StoppedOnlineTime(p: TrackedPlayer)
    requires |p.events| > 0
    ensures Stopped(p).joinTime == p.events[0].timestamp
    ensures Stopped(p).secondsOnline * 1000.0 == (p.events[|p.events| - 1].timestamp - p.events[0].timestamp) as real
    ensures Chronological(p.events) ==> Stopped(p).secondsOnline >= 0.0
  {
  }

  /** A player with no events keeps its join time and is credited with no online time. */
  lemma StoppedWithoutEvents(p: TrackedPlayer)
    requires p.events == []
    ensures Stopped(p).joinTime == p.joinTime && Stopped(p).secondsOnline == 0.0
  {
  }

  /** Online time never exceeds the window that contains all of the player's events. */
  lemma StoppedWithinWindow(p: TrackedPlayer, startTime: int, endTime: int)
    requires forall i :: 0 <= i < |p.events| ==> startTime <= p.events[i].timestamp <= endTime
    ensures Stopped(p).secondsOnline * 1000.0 <= (if p.events == [] then 0 else endTime - startTime) as real
  {
  }

  /** Events at 1000, 4000 and 9000 ms: the player joined at 1000 and was online for 8 seconds. */
  lemma StoppedExample(p: TrackedPlayer)
    requires p.events == [Event(Exp, 1000), Event(Kill, 4000), Event(Death, 9000)]
    ensures Stopped(p).joinTime == 1000 && Stopped(p).secondsOnline == 8.0
  {
  }

  /** Stopping twice derives the same record as stopping once. */
  lemma StoppedIdempotent(p: TrackedPlayer)
    ensures Stopped(Stopped(p)) == Stopped(p)
  {
  }

  /** Identity and events are untouched by stop. */
  lemma StoppedKeepsIdentity(p: TrackedPlayer)
    ensures Stopped(p).characterID == p.characterID && Stopped(p).events == p.events
  {
  }
}
