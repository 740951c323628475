/** `HandleDockedEvent` (eddnlistener/eddnlistener.go:1030-1204, eddnlistener.go:554-728):
 *  a commander docked at a station. When the station's system is known, the event is
 *  newer than the SYSTEM's `updated_at` and the station is known, the station's
 *  allegiance, economy, government, controlling faction and faction state are reconciled
 *  and the changes published on `eddp.delta.station`. Unknown systems and stations are
 *  not created. */
module Docked {
  import opened Wrappers
  import opened Json
  import opened Translate
  import opened Store
  import opened Events

  /** The five facts about a station. The controlling faction is kept as the JSON value
   *  the event carried: the source neither asserts it to be a string nor translates it. */
  datatype StationFacts = StationFacts(allegiance: string, economy: string, government: string,
                                       faction: Value, state: string)

  const StationTopic := "eddp.delta.station"

  /** The allegiance a Docked event means: a missing one is `Faction_Independent`. */
  function EventAllegiance(event: Doc): Result<string>
  {
    var a := Get(event, "StationAllegiance");
    if a == Null then Ok("Faction_Independent") else JsonString(a)
  }

  /** The event's facts: nil-as-empty (nil-as-Independent for the allegiance), asserted
   *  to be strings and translated; the faction is nil-as-empty and otherwise raw. */
  function EventFacts(event: Doc): Result<StationFacts>
  {
    var faction := Get(event, "StationFaction");
    var allegiance := EventAllegiance(event);
    var economy := JsonString(Get(event, "StationEconomy"));
    var government := JsonString(Get(event, "StationGovernment"));
    var state := JsonString(Get(event, "FactionState"));
    if allegiance.Err? || economy.Err? || government.Err? || state.Err? then
      Err("interface conversion: event field is not a string")
    else
      Ok(StationFacts(TranslateAllegiance(allegiance.value), TranslateEconomy(economy.value),
                      TranslateGovernment(government.value),
                      if faction == Null then Str("") else faction,
                      TranslateState(state.value)))
  }

  /** The stored station's facts, each read with `JsonString`. */
  function StoredFacts(station: Doc): Result<StationFacts>
  {
    var allegiance := JsonString(Get(station, "allegiance"));
    var economy := JsonString(Get(station, "primary_economy"));
    var government := JsonString(Get(station, "government"));
    var faction := JsonString(Get(station, "controlling_faction"));
    var state := JsonString(Get(station, "state"));
    if allegiance.Err? || economy.Err? || government.Err? || faction.Err? || state.Err? then
      Err("interface conversion: stored field is not a string")
    else
      Ok(StationFacts(allegiance.value, economy.value, government.value, Str(faction.value),
                      state.value))
  }

  /** The published changes; the stored faction is the string `StoredFacts` read. */
  function StationDelta(stored: StationFacts, current: StationFacts): Doc
    requires stored.faction.Str?
  {
    Change("oldallegiance", "newallegiance", stored.allegiance, Str(current.allegiance))
    + Change("oldeconomy", "neweconomy", stored.economy, Str(current.economy))
    + Change("oldgovernment", "newgovernment", stored.government, Str(current.government))
    + Change("oldfaction", "newfaction", stored.faction.s, current.faction)
    + Change("oldstate", "newstate", stored.state, Str(current.state))
  }

  /** The keys the update path writes. */
  const FactKeys: set<string> :=
    {"allegiance", "primary_economy", "government", "state", "updated_at", "controlling_faction"}

  /** The stored station with the event's facts and a fresh `updated_at`. */
  function WithStationFacts(station: Doc, f: StationFacts, now: int): Doc
  {
    station["allegiance" := Str(f.allegiance)]["primary_economy" := Str(f.economy)]
      ["government" := Str(f.government)]["state" := Str(f.state)]
      ["updated_at" := IntValue(now)]["controlling_faction" := f.faction]
  }

  /** The delta with the system and station names and the system's position. */
  function StationLocated(delta: Doc, name: string, stationName: string, pos: Position): Doc
  {
    delta["systemname" := Str(name)]["stationname" := Str(stationName)]
      ["x" := Num(pos.x)]["y" := Num(pos.y)]["z" := Num(pos.z)]
  }

  /** What handling a Docked event does to the store. */
  function DockedSpec(st: State, event: Doc, env: Env): Effect
  {
    var name := Get(event, "StarSystem");
    var stationName := Get(event, "StationName");
    if !name.Str? then Effect(st, Panicked("StarSystem is not a string"))
    else if !stationName.Str? then Effect(st, Panicked("StationName is not a string"))
    else match EventFacts(event)
    case Err(m) => Effect(st, Panicked(m))
    case Ok(facts) =>
      match StarPos(event)
      case Err(m) => Effect(st, Panicked(m))
      case Ok(pos) =>
        match FindSystem(st.systems, name.s, pos.x, pos.y, pos.z)
        case None => Effect(st, Handled)
        case Some(i) => DockedAtKnownSystem(st, i, event, name.s, stationName.s, facts, pos, env)
  }

  /** Once the system was found at row `i`: the gate on the system's `updated_at`, then
   *  the station lookup. */
  function DockedAtKnownSystem(st: State, i: nat, event: Doc, name: string, stationName: string,
                               facts: StationFacts, pos: Position, env: Env): Effect
    requires i < |st.systems|
  {
    var system := st.systems[i].data;
    var ts := Get(event, "timestamp");
    if !ts.Str? then Effect(st, Panicked("timestamp is not a string"))
    else match env.parseTime(ts.s)
    case None => Effect(st, Dropped("timestamp does not parse"))
    case Some(t) =>
      if t <= IntOr(Get(system, "updated_at"), 0) then Effect(st, Handled)
      else match Int(Get(system, "id"))
      case Err(m) => Effect(st, Dropped(m))
      case Ok(systemId) =>
        match FindStation(st.stations, systemId, stationName)
        case None => Effect(st, Handled)
        case Some(j) => StationRefreshSpec(st, j, systemId, name, stationName, facts, pos, env)
  }

  /** The update path for the station at row `j`. */
  function StationRefreshSpec(st: State, j: nat, systemId: int, name: string, stationName: string,
                              facts: StationFacts, pos: Position, env: Env): Effect
    requires j < |st.stations|
  {
    var station := st.stations[j].data;
    match StoredFacts(station)
    case Err(m) => Effect(st, Panicked(m))
    case Ok(stored) =>
      if stored == facts then Effect(st, Handled)
      else match Int(Get(station, "id"))
      case Err(m) => Effect(st, Dropped(m))
      case Ok(id) =>
        var st1 := UpdateStationSpec(st, systemId, id, WithStationFacts(station, facts, env.now));
        Effect(PublishSpec(st1, StationTopic,
                           StationLocated(StationDelta(stored, facts), name, stationName, pos)),
               Handled)
  }

  /** `HandleDockedEvent`. */
  method HandleDocked(store: Store, event: Doc, env: Env) returns (outcome: Outcome)
    modifies store
    ensures Effect(store.View(), outcome) == DockedSpec(old(store.View()), event, env)
  {
    var systemname := Get(event, "StarSystem");
    if !systemname.Str? {
      return Panicked("StarSystem is not a string");
    }
    var stationname := Get(event, "StationName");
    if !stationname.Str? {
      return Panicked("StationName is not a string");
    }
    var facts := EventFacts(event);
    if facts.Err? {
      return Panicked(facts.msg);
    }
    var position := StarPos(event);
    if position.Err? {
      return Panicked(position.msg);
    }
    var pos := position.value;
    var found := FindSystem(store.systems, systemname.s, pos.x, pos.y, pos.z);
    if found.None? {
      // System doesn't exist; it is not created here
      return Handled;
    }
    var system := store.systems[found.value].data;
    var ts := Get(event, "timestamp");
    if !ts.Str? {
      return Panicked("timestamp is not a string");
    }
    var eventTime := env.parseTime(ts.s);
    if eventTime.None? {
      return Dropped("timestamp does not parse");
    }
    var updateTime := IntOr(Get(system, "updated_at"), 0);
    if eventTime.value <= updateTime {
      return Handled;
    }
    var systemId := Int(Get(system, "id"));
    if systemId.Err? {
      return Dropped(systemId.msg);
    }
    var station := FindStation(store.stations, systemId.value, stationname.s);
    if station.None? {
      return Handled;
    }
    outcome := RefreshStation(store, station.value, systemId.value, systemname.s, stationname.s,
                              facts.value, pos, env);
  }

  /** The five comparisons: the delta and whether anything changed. */
  method CompareStationFacts(db: StationFacts, f: StationFacts) returns (update: Doc, required: bool)
    requires db.faction.Str?
    ensures update == StationDelta(db, f)
    ensures required <==> db != f
  {
    update := map[];
    required := false;
    update, required := CompareField(update, required, "oldallegiance", "newallegiance", db.allegiance, Str(f.allegiance));
    assert update == Change("oldallegiance", "newallegiance", db.allegiance, Str(f.allegiance));
    update, required := CompareField(update, required, "oldeconomy", "neweconomy", db.economy, Str(f.economy));
    update, required := CompareField(update, required, "oldgovernment", "newgovernment", db.government, Str(f.government));
    update, required := CompareField(update, required, "oldfaction", "newfaction", db.faction.s, f.faction);
    update, required := CompareField(update, required, "oldstate", "newstate", db.state, Str(f.state));
  }

  /** The update path for the station at row `j`. */
  method RefreshStation(store: Store, j: nat, systemId: int, name: string, stationName: string,
                        facts: StationFacts, pos: Position, env: Env)
    returns (outcome: Outcome)
    requires j < |store.stations|
    modifies store
    ensures Effect(store.View(), outcome) ==
            StationRefreshSpec(old(store.View()), j, systemId, name, stationName, facts, pos, env)
  {
    var station := store.stations[j].data;
    var stored := StoredFacts(station);
    if stored.Err? {
      return Panicked(stored.msg);
    }
    var update, required := CompareStationFacts(stored.value, facts);
    if !required {
      return Handled;
    }
    station := station["allegiance" := Str(facts.allegiance)];
    station := station["primary_economy" := Str(facts.economy)];
    station := station["government" := Str(facts.government)];
    station := station["state" := Str(facts.state)];
    station := station["updated_at" := IntValue(env.now)];
    station := station["controlling_faction" := facts.faction];
    var stationId := Int(Get(station, "id"));
    if stationId.Err? {
      return Dropped(stationId.msg);
    }
    store.UpdateStation(systemId, stationId.value, station);
    update := update["systemname" := Str(name)];
    update := update["stationname" := Str(stationName)];
    update := update["x" := Num(pos.x)];
    update := update["y" := Num(pos.y)];
    update := update["z" := Num(pos.z)];
    store.Publish(StationTopic, update);
    return Handled;
  }

  // ----- Properties -----

  /** Missing fields: the allegiance defaults to `Independent`, the faction to the empty
   *  string, and the other three translate the empty string, to `None`. */
  lemma EventFactsDefaults(event: Doc)
    requires Get(event, "StationAllegiance") == Null && Get(event, "StationFaction") == Null
    requires Get(event, "StationEconomy") == Null && Get(event, "StationGovernment") == Null
    requires Get(event, "FactionState") == Null
    ensures EventFacts(event) == Ok(StationFacts("Independent", "None", "None", Str(""), "None"))
  {
    IndependentExample();
  }

  /** Read back, the written facts are the event's when the faction was a string; a
   *  faction of any other JSON type is stored as it is and can no longer be read, so
   *  every later Docked event at that station panics. */
  lemma WithStationFactsShape(station: Doc, f: StationFacts, now: int)
    ensures forall k :: k !in FactKeys ==> Get(WithStationFacts(station, f, now), k) == Get(station, k)
    ensures Get(WithStationFacts(station, f, now), "updated_at") == IntValue(now)
    ensures f.faction.Str? ==> StoredFacts(WithStationFacts(station, f, now)) == Ok(f)
    ensures !f.faction.Str? && !f.faction.Null? ==> StoredFacts(WithStationFacts(station, f, now)).Err?
  {
    var d := WithStationFacts(station, f, now);
    assert Get(d, "allegiance") == Str(f.allegiance);
    assert Get(d, "primary_economy") == Str(f.economy);
    assert Get(d, "government") == Str(f.government);
    assert Get(d, "controlling_faction") == f.faction;
    assert Get(d, "state") == Str(f.state);
    FactsOfFields(d, f);
  }

  /** A document holding the five facts reads back as them. */
  lemma FactsOfFields(d: Doc, f: StationFacts)
    requires Get(d, "allegiance") == Str(f.allegiance) && Get(d, "primary_economy") == Str(f.economy)
    requires Get(d, "government") == Str(f.government) && Get(d, "state") == Str(f.state)
    requires Get(d, "controlling_faction") == f.faction
    ensures f.faction.Str? ==> StoredFacts(d) == Ok(f)
    ensures !f.faction.Str? && !f.faction.Null? ==> StoredFacts(d).Err?
  {
  }

  /** The faction poisoning end to end: a stored non-string faction makes the update path
   *  panic whatever the event says. */
  lemma NonStringFactionPanics(st: State, j: nat, systemId: int, name: string, stationName: string,
                               facts: StationFacts, pos: Position, env: Env)
    requires j < |st.stations|
    requires var v := Get(st.stations[j].data, "controlling_faction"); !v.Str? && !v.Null?
    ensures StationRefreshSpec(st, j, systemId, name, stationName, facts, pos, env) ==
            Effect(st, Panicked("interface conversion: stored field is not a string"))
  {
  }

  /** Docked events never create or alter systems or bodies. */
  lemma DockedTouchesOnlyStations(st: State, event: Doc, env: Env)
    ensures var e := DockedSpec(st, event, env);
      e.st.systems == st.systems && e.st.bodies == st.bodies && |e.st.stations| == |st.stations|
  {
    var e := DockedSpec(st, event, env);
    if e.st != st {
      DockedWrittenOnlyWhen(st, event, env);
      var pos := StarPos(event).value;
      var i := FindSystem(st.systems, Get(event, "StarSystem").s, pos.x, pos.y, pos.z).value;
      var systemId := Int(Get(st.systems[i].data, "id")).value;
      var j := FindStation(st.stations, systemId, Get(event, "StationName").s).value;
      assert e == StationRefreshSpec(st, j, systemId, Get(event, "StarSystem").s,
                                     Get(event, "StationName").s, EventFacts(event).value, pos, env);
    }
  }

  /** A station is written only when the event is strictly newer than the SYSTEM's
   *  `updated_at` (a missing or non-integral one counting as 0), the station is known,
   *  and at least one of its five facts differs. */
  lemma DockedWrittenOnlyWhen(st: State, event: Doc, env: Env)
    ensures var e := DockedSpec(st, event, env);
      e.st != st ==>
        && Get(event, "StarSystem").Str? && Get(event, "StationName").Str?
        && EventFacts(event).Ok? && StarPos(event).Ok?
        && var pos := StarPos(event).value;
           var found := FindSystem(st.systems, Get(event, "StarSystem").s, pos.x, pos.y, pos.z);
           && found.Some?
           && var system := st.systems[found.value].data;
              var ts := Get(event, "timestamp");
              && ts.Str? && env.parseTime(ts.s).Some?
              && env.parseTime(ts.s).value > IntOr(Get(system, "updated_at"), 0)
              && Int(Get(system, "id")).Ok?
              && var j := FindStation(st.stations, Int(Get(system, "id")).value, Get(event, "StationName").s);
                 && j.Some?
                 && StoredFacts(st.stations[j.value].data).Ok?
                 && StoredFacts(st.stations[j.value].data).value != EventFacts(event).value
  {
  }

  /** When the station is rewritten, row `j` receives the event's facts and the clock,
   *  every row keeps its searched columns, and one delta is published. */
  lemma StationWrite(st: State, j: nat, systemId: int, name: string, stationName: string,
                     facts: StationFacts, pos: Position, env: Env, stored: StationFacts)
    requires IdsEmbedded(st) && j < |st.stations|
    requires StoredFacts(st.stations[j].data) == Ok(stored) && stored != facts
    requires st.stations[j].systemId == systemId
    ensures var e := StationRefreshSpec(st, j, systemId, name, stationName, facts, pos, env);
      && e.outcome == Handled
      && |e.st.stations| == |st.stations|
      && e.st.stations[j].data == WithStationFacts(st.stations[j].data, facts, env.now)
      && (forall k :: 0 <= k < |st.stations| ==>
            e.st.stations[k] == st.stations[k].(data := e.st.stations[k].data))
      && (forall k :: 0 <= k < |st.stations| && st.stations[k].id != st.stations[j].id ==>
            e.st.stations[k] == st.stations[k])
      && e.st.published == st.published +
           [Delta(StationTopic, StationLocated(StationDelta(stored, facts), name, stationName, pos))]
  {
    assert Int(Get(st.stations[j].data, "id")) == Ok(st.stations[j].id);
  }

  /** Handling a Docked event keeps every stored document carrying its row's id. */
  lemma DockedKeepsIdsEmbedded(st: State, event: Doc, env: Env)
    requires IdsEmbedded(st)
    ensures IdsEmbedded(DockedSpec(st, event, env).st)
  {
    var e := DockedSpec(st, event, env);
    if e.st != st {
      DockedWrittenOnlyWhen(st, event, env);
      var name := Get(event, "StarSystem").s;
      var stationName := Get(event, "StationName").s;
      var facts := EventFacts(event).value;
      var pos := StarPos(event).value;
      var i := FindSystem(st.systems, name, pos.x, pos.y, pos.z).value;
      var systemId := Int(Get(st.systems[i].data, "id")).value;
      var j := FindStation(st.stations, systemId, stationName).value;
      DockedAtStation(st, event, env, name, stationName, facts, pos, i, systemId, j);
      RefreshKeepsIdsEmbedded(st, j, systemId, name, stationName, facts, pos, env);
    }
  }

  /** The update path keeps every stored document carrying its row's id. */
  lemma RefreshKeepsIdsEmbedded(st: State, j: nat, systemId: int, name: string, stationName: string,
                                facts: StationFacts, pos: Position, env: Env)
    requires IdsEmbedded(st) && j < |st.stations|
    ensures IdsEmbedded(StationRefreshSpec(st, j, systemId, name, stationName, facts, pos, env).st)
  {
    var station := st.stations[j].data;
    if StoredFacts(station).Ok? && StoredFacts(station).value != facts && Int(Get(station, "id")).Ok? {
      var id := Int(Get(station, "id")).value;
      var doc := WithStationFacts(station, facts, env.now);
      IntOfIntValue(st.stations[j].id);
      assert Get(station, "id") == IntValue(id);
      assert Get(doc, "id") == Get(station, "id");
      UpdateKeepsIdsEmbedded(st, systemId, id, doc);
      var st1 := UpdateStationSpec(st, systemId, id, doc);
      PublishKeepsIdsEmbedded(st1, StationTopic,
                              StationLocated(StationDelta(StoredFacts(station).value, facts), name, stationName, pos));
    }
  }

  /** The path of a Docked event to a known station of a known system, past the gate. */
  lemma DockedAtStation(st: State, event: Doc, env: Env, name: string, stationName: string,
                        facts: StationFacts, pos: Position, i: nat, systemId: int, j: nat)
    requires Get(event, "StarSystem") == Str(name) && Get(event, "StationName") == Str(stationName)
    requires EventFacts(event) == Ok(facts) && StarPos(event) == Ok(pos)
    requires FindSystem(st.systems, name, pos.x, pos.y, pos.z) == Some(i) && i < |st.systems|
    requires Get(event, "timestamp").Str? && env.parseTime(Get(event, "timestamp").s).Some?
    requires env.parseTime(Get(event, "timestamp").s).value > IntOr(Get(st.systems[i].data, "updated_at"), 0)
    requires Int(Get(st.systems[i].data, "id")) == Ok(systemId)
    requires FindStation(st.stations, systemId, stationName) == Some(j) && j < |st.stations|
    ensures DockedSpec(st, event, env) == StationRefreshSpec(st, j, systemId, name, stationName, facts, pos, env)
  {
  }

  /** Handling the same Docked event twice is handling it once, whatever the clock says:
   *  the gate reads the system's `updated_at`, which the first pass does not change, but
   *  the station then already holds the event's facts, or, for a faction that is not a
   *  string, a faction that makes the second pass panic before it writes. */
  lemma DockedReplayIsNoop(st: State, event: Doc, env: Env)
    requires IdsEmbedded(st)
    ensures var e := DockedSpec(st, event, env);
      DockedSpec(e.st, event, env).st == e.st
  {
    var e := DockedSpec(st, event, env);
    if e.st != st {
      DockedWrittenOnlyWhen(st, event, env);
      var name := Get(event, "StarSystem").s;
      var stationName := Get(event, "StationName").s;
      var facts := EventFacts(event).value;
      var pos := StarPos(event).value;
      var i := FindSystem(st.systems, name, pos.x, pos.y, pos.z).value;
      var systemId := Int(Get(st.systems[i].data, "id")).value;
      var j := FindStation(st.stations, systemId, stationName).value;
      DockedAtStation(st, event, env, name, stationName, facts, pos, i, systemId, j);
      RefreshReplay(st, j, systemId, name, stationName, facts, pos, env);
      DockedAtStation(e.st, event, env, name, stationName, facts, pos, i, systemId, j);
    }
  }

  /** After the update path rewrote station `j`, the same station is found again and
   *  already holds the facts, or a faction it cannot read. */
  lemma RefreshReplay(st: State, j: nat, systemId: int, name: string, stationName: string,
                      facts: StationFacts, pos: Position, env: Env)
    requires IdsEmbedded(st) && !facts.faction.Null?
    requires FindStation(st.stations, systemId, stationName) == Some(j)
    requires StationRefreshSpec(st, j, systemId, name, stationName, facts, pos, env).st != st
    ensures var e := StationRefreshSpec(st, j, systemId, name, stationName, facts, pos, env);
      && e.st.systems == st.systems
      && FindStation(e.st.stations, systemId, stationName) == Some(j) && j < |e.st.stations|
      && StationRefreshSpec(e.st, j, systemId, name, stationName, facts, pos, env).st == e.st
  {
    var e := StationRefreshSpec(st, j, systemId, name, stationName, facts, pos, env);
    var stored := StoredFacts(st.stations[j].data).value;
    assert st.stations[j].systemId == systemId;
    StationWrite(st, j, systemId, name, stationName, facts, pos, env, stored);
    var matches := (r: StationRow) => r.systemId == systemId && r.name == stationName;
    FirstIndexSameKeys(st.stations, e.st.stations, matches);
    assert FindStation(e.st.stations, systemId, stationName) == Some(j);
    WithStationFactsShape(st.stations[j].data, facts, env.now);
  }
}
