/** `HandleFSDJumpEvent` (eddnlistener/eddnlistener.go:1413-1594, eddnlistener.go:937-1118):
 *  a commander arrived in a system. An unknown system is created; a known, populated
 *  system whose stored state is older than the event has its security, allegiance,
 *  economy, government and faction state reconciled, and the changes are published on
 *  `eddp.delta.system`. */
module Arrival {
  import opened Wrappers
  import opened Json
  import opened Translate
  import opened Store
  import opened Events

  /** The five descriptive fields of a system, as the API names them. */
  datatype Profile = Profile(security: string, allegiance: string, economy: string,
                             government: string, state: string)

  const SystemTopic := "eddp.delta.system"

  /** The event's five fields, each nil-as-empty, asserted to be a string, translated. */
  function EventProfile(event: Doc): Result<Profile>
  {
    var security := JsonString(Get(event, "SystemSecurity"));
    var allegiance := JsonString(Get(event, "SystemAllegiance"));
    var economy := JsonString(Get(event, "SystemEconomy"));
    var government := JsonString(Get(event, "SystemGovernment"));
    var state := JsonString(Get(event, "FactionState"));
    if security.Err? || allegiance.Err? || economy.Err? || government.Err? || state.Err? then
      Err("interface conversion: event field is not a string")
    else
      Ok(Profile(TranslateSecurity(security.value), TranslateAllegiance(allegiance.value),
                 TranslateEconomy(economy.value), TranslateGovernment(government.value),
                 TranslateState(state.value)))
  }

  /** The stored document's five fields, read with `JsonString`. */
  function StoredProfile(system: Doc): Result<Profile>
  {
    var security := JsonString(Get(system, "security"));
    var allegiance := JsonString(Get(system, "allegiance"));
    var economy := JsonString(Get(system, "primary_economy"));
    var government := JsonString(Get(system, "government"));
    var state := JsonString(Get(system, "state"));
    if security.Err? || allegiance.Err? || economy.Err? || government.Err? || state.Err? then
      Err("interface conversion: stored field is not a string")
    else
      Ok(Profile(security.value, allegiance.value, economy.value, government.value, state.value))
  }

  /** The published changes between the stored and the event's profile. */
  function ProfileDelta(stored: Profile, current: Profile): Doc
  {
    Change("oldsecurity", "newsecurity", stored.security, Str(current.security))
    + Change("oldallegiance", "newallegiance", stored.allegiance, Str(current.allegiance))
    + Change("oldeconomy", "neweconomy", stored.economy, Str(current.economy))
    + Change("oldgovernment", "newgovernment", stored.government, Str(current.government))
    + Change("oldstate", "newstate", stored.state, Str(current.state))
  }

  /** The keys the update path writes. */
  const ProfileKeys: set<string> :=
    {"security", "allegiance", "primary_economy", "government", "state", "updated_at"}

  /** The stored system with the event's profile and a fresh `updated_at`. */
  function WithProfile(system: Doc, p: Profile, now: int): Doc
  {
    system["security" := Str(p.security)]["allegiance" := Str(p.allegiance)]
      ["primary_economy" := Str(p.economy)]["government" := Str(p.government)]
      ["state" := Str(p.state)]["updated_at" := IntValue(now)]
  }

  /** The document of a system seen for the first time. */
  function NewSystem(name: string, pos: Position, p: Profile, now: int): Doc
  {
    map["name" := Str(name), "x" := Num(pos.x), "y" := Num(pos.y), "z" := Num(pos.z),
        "is_populated" := Bool(false), "government" := Str(p.government),
        "allegiance" := Str(p.allegiance), "state" := Str(p.state),
        "security" := Str(p.security), "primary_economy" := Str(p.economy),
        "updated_at" := IntValue(now)]
  }

  /** What handling an arrival does to the store. */
  function ArrivalSpec(st: State, event: Doc, env: Env): Effect
  {
    var name := Get(event, "StarSystem");
    if !name.Str? then Effect(st, Panicked("StarSystem is not a string"))
    else match EventProfile(event)
    case Err(m) => Effect(st, Panicked(m))
    case Ok(p) =>
      match StarPos(event)
      case Err(m) => Effect(st, Panicked(m))
      case Ok(pos) =>
        match FindSystem(st.systems, name.s, pos.x, pos.y, pos.z)
        case None =>
          var doc := NewSystem(name.s, pos, p, env.now);
          var st' := InsertSystemSpec(st, name.s, pos.x, pos.y, pos.z, doc, env.insertOutcomes);
          if NextId(SystemIds(st.systems)).Some? && InsertSucceeds(env.insertOutcomes)
          then Effect(st', Handled) else Effect(st', Dropped("insert failed"))
        case Some(i) => KnownSystemSpec(st, i, event, name.s, p, pos, env)
  }

  /** The update path, once the system was found at row `i`. */
  function KnownSystemSpec(st: State, i: nat, event: Doc, name: string, p: Profile,
                           pos: Position, env: Env): Effect
    requires i < |st.systems|
  {
    var system := st.systems[i].data;
    var ts := Get(event, "timestamp");
    if !ts.Str? then Effect(st, Panicked("timestamp is not a string"))
    else match env.parseTime(ts.s)
    case None => Effect(st, Dropped("timestamp does not parse"))
    case Some(t) =>
      match Int(Get(system, "updated_at"))
      case Err(m) => Effect(st, Dropped(m))
      case Ok(u) =>
        if t <= u then Effect(st, Handled)
        else
          var populated := Get(system, "is_populated");
          if !populated.Bool? then Effect(st, Panicked("is_populated is not a bool"))
          else if !populated.b then Effect(st, Handled)
          else match StoredProfile(system)
          case Err(m) => Effect(st, Panicked(m))
          case Ok(stored) =>
            if stored == p then Effect(st, Handled)
            else match Int(Get(system, "id"))
            case Err(m) => Effect(st, Dropped(m))
            case Ok(id) =>
              var st1 := UpdateSystemSpec(st, id, WithProfile(system, p, env.now));
              Effect(PublishSpec(st1, SystemTopic, Located(ProfileDelta(stored, p), name, pos)), Handled)
  }

  /** `HandleFSDJumpEvent`. */
  method HandleFSDJump(store: Store, event: Doc, env: Env) returns (outcome: Outcome)
    modifies store
    ensures Effect(store.View(), outcome) == ArrivalSpec(old(store.View()), event, env)
  {
    var systemname := Get(event, "StarSystem");
    if !systemname.Str? {
      return Panicked("StarSystem is not a string");
    }
    var profile := EventProfile(event);
    if profile.Err? {
      return Panicked(profile.msg);
    }
    var p := profile.value;
    var position := StarPos(event);
    if position.Err? {
      return Panicked(position.msg);
    }
    var pos := position.value;

    var found := FindSystem(store.systems, systemname.s, pos.x, pos.y, pos.z);
    if found.None? {
      outcome := CreateSystem(store, systemname.s, p, pos, env);
    } else {
      outcome := ReconcileSystem(store, found.value, event, systemname.s, p, pos, env);
    }
  }

  /** The create path: the system is inserted with `is_populated` false and nothing is
   *  published. */
  method CreateSystem(store: Store, name: string, p: Profile, pos: Position, env: Env)
    returns (outcome: Outcome)
    modifies store
    ensures store.View() == InsertSystemSpec(old(store.View()), name, pos.x, pos.y, pos.z,
                                             NewSystem(name, pos, p, env.now), env.insertOutcomes)
    ensures outcome == if NextId(SystemIds(old(store.systems))).Some? && InsertSucceeds(env.insertOutcomes)
                       then Handled else Dropped("insert failed")
  {
    var dbsystem: Doc := map[];
    dbsystem := dbsystem["name" := Str(name)];
    dbsystem := dbsystem["x" := Num(pos.x)];
    dbsystem := dbsystem["y" := Num(pos.y)];
    dbsystem := dbsystem["z" := Num(pos.z)];
    dbsystem := dbsystem["is_populated" := Bool(false)];
    dbsystem := dbsystem["government" := Str(p.government)];
    dbsystem := dbsystem["allegiance" := Str(p.allegiance)];
    dbsystem := dbsystem["state" := Str(p.state)];
    dbsystem := dbsystem["security" := Str(p.security)];
    dbsystem := dbsystem["primary_economy" := Str(p.economy)];
    dbsystem := dbsystem["updated_at" := IntValue(env.now)];
    var ok := store.InsertSystem(name, pos.x, pos.y, pos.z, dbsystem, env.insertOutcomes);
    return if ok then Handled else Dropped("insert failed");
  }

  /** The five comparisons: the delta and whether anything changed. */
  method CompareProfiles(db: Profile, p: Profile) returns (update: Doc, required: bool)
    ensures update == ProfileDelta(db, p)
    ensures required <==> db != p
  {
    update := map[];
    required := false;
    update, required := CompareField(update, required, "oldsecurity", "newsecurity", db.security, Str(p.security));
    assert update == Change("oldsecurity", "newsecurity", db.security, Str(p.security));
    update, required := CompareField(update, required, "oldallegiance", "newallegiance", db.allegiance, Str(p.allegiance));
    update, required := CompareField(update, required, "oldeconomy", "neweconomy", db.economy, Str(p.economy));
    update, required := CompareField(update, required, "oldgovernment", "newgovernment", db.government, Str(p.government));
    update, required := CompareField(update, required, "oldstate", "newstate", db.state, Str(p.state));
  }

  /** The update path for the system at row `i`. */
  method ReconcileSystem(store: Store, i: nat, event: Doc, name: string, p: Profile,
                         pos: Position, env: Env)
    returns (outcome: Outcome)
    requires i < |store.systems|
    modifies store
    ensures Effect(store.View(), outcome) == KnownSystemSpec(old(store.View()), i, event, name, p, pos, env)
  {
    var system := store.systems[i].data;
    var ts := Get(event, "timestamp");
    if !ts.Str? {
      return Panicked("timestamp is not a string");
    }
    var eventTime := env.parseTime(ts.s);
    if eventTime.None? {
      return Dropped("timestamp does not parse");
    }
    var updateTime := Int(Get(system, "updated_at"));
    if updateTime.Err? {
      return Dropped(updateTime.msg);
    }
    if eventTime.value <= updateTime.value {
      return Handled;
    }
    // State, economy etc. are only valid if the system is populated
    var populated := Get(system, "is_populated");
    if !populated.Bool? {
      return Panicked("is_populated is not a bool");
    }
    if !populated.b {
      return Handled;
    }
    var stored := StoredProfile(system);
    if stored.Err? {
      return Panicked(stored.msg);
    }
    var db := stored.value;
    var update, required := CompareProfiles(db, p);
    if !required {
      return Handled;
    }
    system := system["security" := Str(p.security)];
    system := system["allegiance" := Str(p.allegiance)];
    system := system["primary_economy" := Str(p.economy)];
    system := system["government" := Str(p.government)];
    system := system["state" := Str(p.state)];
    system := system["updated_at" := IntValue(env.now)];
    var systemId := Int(Get(system, "id"));
    if systemId.Err? {
      return Dropped(systemId.msg);
    }
    store.UpdateSystem(systemId.value, system);
    update := update["systemname" := Str(name)];
    update := update["x" := Num(pos.x)];
    update := update["y" := Num(pos.y)];
    update := update["z" := Num(pos.z)];
    store.Publish(SystemTopic, update);
    return Handled;
  }

  // ----- Properties -----

  /** The write keeps every key but the six it sets, sets those to the event's profile
   *  and the clock, and leaves a document whose stored profile is the event's. */
  lemma WithProfileShape(system: Doc, p: Profile, now: int)
    ensures forall k :: k !in ProfileKeys ==> Get(WithProfile(system, p, now), k) == Get(system, k)
    ensures Get(WithProfile(system, p, now), "updated_at") == IntValue(now)
    ensures StoredProfile(WithProfile(system, p, now)) == Ok(p)
  {
  }

  /** The five fields, to speak of them one at a time. */
  datatype Field = Security | Allegiance | Economy | Government | FactionState

  function FieldOf(p: Profile, f: Field): string
  {
    match f
    case Security => p.security
    case Allegiance => p.allegiance
    case Economy => p.economy
    case Government => p.government
    case FactionState => p.state
  }

  /** The delta's key for the stored value of a field; the new value goes under `new...`. */
  function OldKey(f: Field): string
  {
    match f
    case Security => "oldsecurity"
    case Allegiance => "oldallegiance"
    case Economy => "oldeconomy"
    case Government => "oldgovernment"
    case FactionState => "oldstate"
  }

  function NewKey(f: Field): string
  {
    match f
    case Security => "newsecurity"
    case Allegiance => "newallegiance"
    case Economy => "neweconomy"
    case Government => "newgovernment"
    case FactionState => "newstate"
  }

  /** The delta holds a field's old and new values exactly when the field changed from a
   *  non-empty stored value. */
  lemma ProfileDeltaEntry(stored: Profile, current: Profile, f: Field)
    ensures var d := ProfileDelta(stored, current);
      && (OldKey(f) in d <==> FieldOf(stored, f) != FieldOf(current, f) && FieldOf(stored, f) != "")
      && (NewKey(f) in d <==> OldKey(f) in d)
      && (OldKey(f) in d ==> d[OldKey(f)] == Str(FieldOf(stored, f)) && d[NewKey(f)] == Str(FieldOf(current, f)))
  {
    match f
    case Security => DeltaEntryOfSecurity(stored, current);
    case Allegiance => DeltaEntryOfAllegiance(stored, current);
    case Economy => DeltaEntryOfEconomy(stored, current);
    case Government => DeltaEntryOfGovernment(stored, current);
    case FactionState => DeltaEntryOfFactionState(stored, current);
  }

  lemma DeltaEntryOfSecurity(stored: Profile, current: Profile)
    ensures var d := ProfileDelta(stored, current);
      && ("oldsecurity" in d <==> stored.security != current.security && stored.security != "")
      && ("newsecurity" in d <==> "oldsecurity" in d)
      && ("oldsecurity" in d ==> d["oldsecurity"] == Str(stored.security) && d["newsecurity"] == Str(current.security))
  {
    var c1 := Change("oldsecurity", "newsecurity", stored.security, Str(current.security));
    var c2 := Change("oldallegiance", "newallegiance", stored.allegiance, Str(current.allegiance));
    var c3 := Change("oldeconomy", "neweconomy", stored.economy, Str(current.economy));
    var c4 := Change("oldgovernment", "newgovernment", stored.government, Str(current.government));
    var c5 := Change("oldstate", "newstate", stored.state, Str(current.state));
    ChangeCases("oldsecurity", "newsecurity", stored.security, Str(current.security));
    ChangeCases("oldallegiance", "newallegiance", stored.allegiance, Str(current.allegiance));
    ChangeCases("oldeconomy", "neweconomy", stored.economy, Str(current.economy));
    ChangeCases("oldgovernment", "newgovernment", stored.government, Str(current.government));
    ChangeCases("oldstate", "newstate", stored.state, Str(current.state));
    assert "oldsecurity" !in c2 && "newsecurity" !in c2;
    assert "oldsecurity" !in c3 && "newsecurity" !in c3;
    assert "oldsecurity" !in c4 && "newsecurity" !in c4;
    assert "oldsecurity" !in c5 && "newsecurity" !in c5;
    assert ProfileDelta(stored, current) == c1 + c2 + c3 + c4 + c5;
  }

  lemma DeltaEntryOfAllegiance(stored: Profile, current: Profile)
    ensures var d := ProfileDelta(stored, current);
      && ("oldallegiance" in d <==> stored.allegiance != current.allegiance && stored.allegiance != "")
      && ("newallegiance" in d <==> "oldallegiance" in d)
      && ("oldallegiance" in d ==> d["oldallegiance"] == Str(stored.allegiance) && d["newallegiance"] == Str(current.allegiance))
  {
    var c1 := Change("oldsecurity", "newsecurity", stored.security, Str(current.security));
    var c2 := Change("oldallegiance", "newallegiance", stored.allegiance, Str(current.allegiance));
    var c3 := Change("oldeconomy", "neweconomy", stored.economy, Str(current.economy));
    var c4 := Change("oldgovernment", "newgovernment", stored.government, Str(current.government));
    var c5 := Change("oldstate", "newstate", stored.state, Str(current.state));
    ChangeCases("oldsecurity", "newsecurity", stored.security, Str(current.security));
    ChangeCases("oldallegiance", "newallegiance", stored.allegiance, Str(current.allegiance));
    ChangeCases("oldeconomy", "neweconomy", stored.economy, Str(current.economy));
    ChangeCases("oldgovernment", "newgovernment", stored.government, Str(current.government));
    ChangeCases("oldstate", "newstate", stored.state, Str(current.state));
    assert "oldallegiance" !in c1 && "newallegiance" !in c1;
    assert "oldallegiance" !in c3 && "newallegiance" !in c3;
    assert "oldallegiance" !in c4 && "newallegiance" !in c4;
    assert "oldallegiance" !in c5 && "newallegiance" !in c5;
    assert ProfileDelta(stored, current) == c1 + c2 + c3 + c4 + c5;
  }

  lemma DeltaEntryOfEconomy(stored: Profile, current: Profile)
    ensures var d := ProfileDelta(stored, current);
      && ("oldeconomy" in d <==> stored.economy != current.economy && stored.economy != "")
      && ("neweconomy" in d <==> "oldeconomy" in d)
      && ("oldeconomy" in d ==> d["oldeconomy"] == Str(stored.economy) && d["neweconomy"] == Str(current.economy))
  {
    var c1 := Change("oldsecurity", "newsecurity", stored.security, Str(current.security));
    var c2 := Change("oldallegiance", "newallegiance", stored.allegiance, Str(current.allegiance));
    var c3 := Change("oldeconomy", "neweconomy", stored.economy, Str(current.economy));
    var c4 := Change("oldgovernment", "newgovernment", stored.government, Str(current.government));
    var c5 := Change("oldstate", "newstate", stored.state, Str(current.state));
    ChangeCases("oldsecurity", "newsecurity", stored.security, Str(current.security));
    ChangeCases("oldallegiance", "newallegiance", stored.allegiance, Str(current.allegiance));
    ChangeCases("oldeconomy", "neweconomy", stored.economy, Str(current.economy));
    ChangeCases("oldgovernment", "newgovernment", stored.government, Str(current.government));
    ChangeCases("oldstate", "newstate", stored.state, Str(current.state));
    assert "oldeconomy" !in c1 && "neweconomy" !in c1;
    assert "oldeconomy" !in c2 && "neweconomy" !in c2;
    assert "oldeconomy" !in c4 && "neweconomy" !in c4;
    assert "oldeconomy" !in c5 && "neweconomy" !in c5;
    assert ProfileDelta(stored, current) == c1 + c2 + c3 + c4 + c5;
  }

  lemma DeltaEntryOfGovernment(stored: Profile, current: Profile)
    ensures var d := ProfileDelta(stored, current);
      && ("oldgovernment" in d <==> stored.government != current.government && stored.government != "")
      && ("newgovernment" in d <==> "oldgovernment" in d)
      && ("oldgovernment" in d ==> d["oldgovernment"] == Str(stored.government) && d["newgovernment"] == Str(current.government))
  {
    var c1 := Change("oldsecurity", "newsecurity", stored.security, Str(current.security));
    var c2 := Change("oldallegiance", "newallegiance", stored.allegiance, Str(current.allegiance));
    var c3 := Change("oldeconomy", "neweconomy", stored.economy, Str(current.economy));
    var c4 := Change("oldgovernment", "newgovernment", stored.government, Str(current.government));
    var c5 := Change("oldstate", "newstate", stored.state, Str(current.state));
    ChangeCases("oldsecurity", "newsecurity", stored.security, Str(current.security));
    ChangeCases("oldallegiance", "newallegiance", stored.allegiance, Str(current.allegiance));
    ChangeCases("oldeconomy", "neweconomy", stored.economy, Str(current.economy));
    ChangeCases("oldgovernment", "newgovernment", stored.government, Str(current.government));
    ChangeCases("oldstate", "newstate", stored.state, Str(current.state));
    assert "oldgovernment" !in c1 && "newgovernment" !in c1;
    assert "oldgovernment" !in c2 && "newgovernment" !in c2;
    assert "oldgovernment" !in c3 && "newgovernment" !in c3;
    assert "oldgovernment" !in c5 && "newgovernment" !in c5;
    assert ProfileDelta(stored, current) == c1 + c2 + c3 + c4 + c5;
  }

  lemma DeltaEntryOfFactionState(stored: Profile, current: Profile)
    ensures var d := ProfileDelta(stored, current);
      && ("oldstate" in d <==> stored.state != current.state && stored.state != "")
      && ("newstate" in d <==> "oldstate" in d)
      && ("oldstate" in d ==> d["oldstate"] == Str(stored.state) && d["newstate"] == Str(current.state))
  {
    var c1 := Change("oldsecurity", "newsecurity", stored.security, Str(current.security));
    var c2 := Change("oldallegiance", "newallegiance", stored.allegiance, Str(current.allegiance));
    var c3 := Change("oldeconomy", "neweconomy", stored.economy, Str(current.economy));
    var c4 := Change("oldgovernment", "newgovernment", stored.government, Str(current.government));
    var c5 := Change("oldstate", "newstate", stored.state, Str(current.state));
    ChangeCases("oldsecurity", "newsecurity", stored.security, Str(current.security));
    ChangeCases("oldallegiance", "newallegiance", stored.allegiance, Str(current.allegiance));
    ChangeCases("oldeconomy", "neweconomy", stored.economy, Str(current.economy));
    ChangeCases("oldgovernment", "newgovernment", stored.government, Str(current.government));
    ChangeCases("oldstate", "newstate", stored.state, Str(current.state));
    assert "oldstate" !in c1 && "newstate" !in c1;
    assert "oldstate" !in c2 && "newstate" !in c2;
    assert "oldstate" !in c3 && "newstate" !in c3;
    assert "oldstate" !in c4 && "newstate" !in c4;
    assert ProfileDelta(stored, current) == c1 + c2 + c3 + c4 + c5;
  }

  /** The delta carries no other key. */
  lemma ProfileDeltaKeys(stored: Profile, current: Profile)
    ensures ProfileDelta(stored, current).Keys <= DeltaKeys
  {
    ChangeCases("oldsecurity", "newsecurity", stored.security, Str(current.security));
    ChangeCases("oldallegiance", "newallegiance", stored.allegiance, Str(current.allegiance));
    ChangeCases("oldeconomy", "neweconomy", stored.economy, Str(current.economy));
    ChangeCases("oldgovernment", "newgovernment", stored.government, Str(current.government));
    ChangeCases("oldstate", "newstate", stored.state, Str(current.state));
  }

  const DeltaKeys: set<string> := {"oldsecurity", "newsecurity", "oldallegiance", "newallegiance",
    "oldeconomy", "neweconomy", "oldgovernment", "newgovernment", "oldstate", "newstate"}

  /** The created document: not populated, stamped with the clock, carrying the
   *  event's profile. */
  lemma NewSystemShape(name: string, pos: Position, p: Profile, now: int, id: int)
    ensures var doc := NewSystem(name, pos, p, now)["id" := IntValue(id)];
      && Get(doc, "is_populated") == Bool(false)
      && Get(doc, "updated_at") == IntValue(now)
      && StoredProfile(doc) == Ok(p)
  {
    var doc := NewSystem(name, pos, p, now)["id" := IntValue(id)];
    assert Get(doc, "security") == Str(p.security);
    assert Get(doc, "allegiance") == Str(p.allegiance);
    assert Get(doc, "primary_economy") == Str(p.economy);
    assert Get(doc, "government") == Str(p.government);
    assert Get(doc, "state") == Str(p.state);
    ProfileOfFields(doc, p);
  }

  /** A document holding the profile's five strings yields that profile. */
  lemma ProfileOfFields(doc: Doc, p: Profile)
    requires Get(doc, "security") == Str(p.security) && Get(doc, "allegiance") == Str(p.allegiance)
    requires Get(doc, "primary_economy") == Str(p.economy) && Get(doc, "government") == Str(p.government)
    requires Get(doc, "state") == Str(p.state)
    ensures StoredProfile(doc) == Ok(p)
  {
  }

  /** An unseen system is inserted, not populated and stamped with the clock, and nothing
   *  is published; when the insert cannot happen the store is unchanged. */
  lemma UnseenSystemCreated(st: State, event: Doc, env: Env, name: string, p: Profile, pos: Position)
    requires Get(event, "StarSystem") == Str(name) && EventProfile(event) == Ok(p) && StarPos(event) == Ok(pos)
    requires FindSystem(st.systems, name, pos.x, pos.y, pos.z).None?
    ensures var e := ArrivalSpec(st, event, env);
      && e.st.published == st.published && e.st.bodies == st.bodies && e.st.stations == st.stations
      && (st.systems != [] && InsertSucceeds(env.insertOutcomes) ==>
            && e.outcome == Handled
            && |e.st.systems| == |st.systems| + 1
            && e.st.systems[..|st.systems|] == st.systems
            && var row := e.st.systems[|st.systems|];
               row.name == name && row.x == pos.x && row.y == pos.y && row.z == pos.z
               && Get(row.data, "is_populated") == Bool(false)
               && Get(row.data, "updated_at") == IntValue(env.now)
               && StoredProfile(row.data) == Ok(p))
      && (st.systems == [] || !InsertSucceeds(env.insertOutcomes) ==> e.st == st && e.outcome.Dropped?)
  {
    assert |SystemIds(st.systems)| == |st.systems|;
    NextIdFresh(SystemIds(st.systems));
    var e := ArrivalSpec(st, event, env);
    if st.systems != [] && InsertSucceeds(env.insertOutcomes) {
      var id := NextId(SystemIds(st.systems)).value;
      NewSystemShape(name, pos, p, env.now, id);
      assert e.st.systems[..|st.systems|] == st.systems;
    }
  }

  /** A known system is written only when the event is strictly newer than its
   *  `updated_at`, it is populated, and at least one of the five fields differs. */
  lemma KnownSystemWrittenOnlyWhen(st: State, i: nat, event: Doc, name: string, p: Profile,
                                   pos: Position, env: Env)
    requires i < |st.systems|
    ensures var e := KnownSystemSpec(st, i, event, name, p, pos, env);
      var system := st.systems[i].data;
      var ts := Get(event, "timestamp");
      e.st != st ==>
        && ts.Str? && env.parseTime(ts.s).Some? && Int(Get(system, "updated_at")).Ok?
        && env.parseTime(ts.s).value > Int(Get(system, "updated_at")).value
        && Get(system, "is_populated") == Bool(true)
        && StoredProfile(system).Ok? && StoredProfile(system).value != p
  {
  }

  /** When the gate opens, row `i` receives the event's profile and the clock, every other
   *  row keeps its searched columns, and one delta is published. */
  lemma KnownSystemWrite(st: State, i: nat, event: Doc, name: string, p: Profile, pos: Position,
                         env: Env, t: int, stored: Profile)
    requires IdsEmbedded(st) && i < |st.systems|
    requires Get(event, "timestamp").Str? && env.parseTime(Get(event, "timestamp").s) == Some(t)
    requires Int(Get(st.systems[i].data, "updated_at")).Ok?
    requires t > Int(Get(st.systems[i].data, "updated_at")).value
    requires Get(st.systems[i].data, "is_populated") == Bool(true)
    requires StoredProfile(st.systems[i].data) == Ok(stored) && stored != p
    ensures var e := KnownSystemSpec(st, i, event, name, p, pos, env);
      && e.outcome == Handled
      && |e.st.systems| == |st.systems|
      && e.st.systems[i].data == WithProfile(st.systems[i].data, p, env.now)
      && (forall j :: 0 <= j < |st.systems| ==>
            e.st.systems[j] == st.systems[j].(data := e.st.systems[j].data))
      && (forall j :: 0 <= j < |st.systems| && st.systems[j].id != st.systems[i].id ==>
            e.st.systems[j] == st.systems[j])
      && e.st.published == st.published + [Delta(SystemTopic, Located(ProfileDelta(stored, p), name, pos))]
      && e.st.bodies == st.bodies && e.st.stations == st.stations
  {
    assert Int(Get(st.systems[i].data, "id")) == Ok(st.systems[i].id);
  }

  /** Handling an arrival keeps every stored document carrying its row's id. */
  lemma ArrivalKeepsIdsEmbedded(st: State, event: Doc, env: Env)
    requires IdsEmbedded(st)
    ensures IdsEmbedded(ArrivalSpec(st, event, env).st)
  {
    var name := Get(event, "StarSystem");
    if name.Str? && EventProfile(event).Ok? && StarPos(event).Ok? {
      var p := EventProfile(event).value;
      var pos := StarPos(event).value;
      match FindSystem(st.systems, name.s, pos.x, pos.y, pos.z)
      case None =>
        InsertKeepsIdsEmbedded(st, name.s, pos.x, pos.y, pos.z, 0, NewSystem(name.s, pos, p, env.now), env.insertOutcomes);
      case Some(i) =>
        KnownSystemKeepsIdsEmbedded(st, i, event, name.s, p, pos, env);
    }
  }

  /** The update path keeps every stored document carrying its row's id. */
  lemma KnownSystemKeepsIdsEmbedded(st: State, i: nat, event: Doc, name: string, p: Profile,
                                    pos: Position, env: Env)
    requires IdsEmbedded(st) && i < |st.systems|
    ensures IdsEmbedded(KnownSystemSpec(st, i, event, name, p, pos, env).st)
  {
    var e := KnownSystemSpec(st, i, event, name, p, pos, env);
    if e.st != st {
      KnownSystemWrittenOnlyWhen(st, i, event, name, p, pos, env);
      var system := st.systems[i].data;
      var id := st.systems[i].id;
      IntOfIntValue(id);
      assert Int(Get(system, "id")) == Ok(id);
      var doc := WithProfile(system, p, env.now);
      var st1 := UpdateSystemSpec(st, id, doc);
      var delta := Located(ProfileDelta(StoredProfile(system).value, p), name, pos);
      assert e.st == PublishSpec(st1, SystemTopic, delta);
      WithProfileShape(system, p, env.now);
      UpdateKeepsIdsEmbedded(st, 0, id, doc);
      PublishKeepsIdsEmbedded(st1, SystemTopic, delta);
    }
  }

  /** Handling the same arrival twice is handling it once, whatever the clock says: a
   *  created system is not populated, and an updated one already holds the event's
   *  profile, so the second pass writes nothing. */
  lemma ArrivalReplayIsNoop(st: State, event: Doc, env: Env)
    requires IdsEmbedded(st)
    ensures var e := ArrivalSpec(st, event, env);
      ArrivalSpec(e.st, event, env).st == e.st
  {
    var e := ArrivalSpec(st, event, env);
    if e.st != st {
      var name := Get(event, "StarSystem").s;
      var p := EventProfile(event).value;
      var pos := StarPos(event).value;
      match FindSystem(st.systems, name, pos.x, pos.y, pos.z)
      case None => ReplayAfterCreate(st, event, env, name, p, pos);
      case Some(i) => ReplayAfterUpdate(st, event, env, name, p, pos, i);
    }
  }

  /** The replay of an arrival that created its system finds the new row. */
  lemma ReplayAfterCreate(st: State, event: Doc, env: Env, name: string, p: Profile, pos: Position)
    requires IdsEmbedded(st)
    requires Get(event, "StarSystem") == Str(name) && EventProfile(event) == Ok(p) && StarPos(event) == Ok(pos)
    requires FindSystem(st.systems, name, pos.x, pos.y, pos.z).None?
    requires ArrivalSpec(st, event, env).st != st
    ensures var e := ArrivalSpec(st, event, env);
      ArrivalSpec(e.st, event, env).st == e.st
  {
    var e := ArrivalSpec(st, event, env);
    var matches := (r: SystemRow) => r.name == name && r.x == pos.x && r.y == pos.y && r.z == pos.z;
    var doc := NewSystem(name, pos, p, env.now);
    var id := NextId(SystemIds(st.systems)).value;
    var row := SystemRow(id, name, pos.x, pos.y, pos.z, doc["id" := IntValue(id)]);
    assert e.st.systems == st.systems + [row];
    FirstIndexAppend(st.systems, row, matches);
    assert FindSystem(e.st.systems, name, pos.x, pos.y, pos.z) == Some(|st.systems|);
    assert e.st.systems[|st.systems|] == row;
    NewSystemShape(name, pos, p, env.now, id);
    assert KnownSystemSpec(e.st, |st.systems|, event, name, p, pos, env).st == e.st;
  }

  /** The replay of an arrival that updated its system finds it holding the profile. */
  lemma ReplayAfterUpdate(st: State, event: Doc, env: Env, name: string, p: Profile, pos: Position, i: nat)
    requires IdsEmbedded(st)
    requires Get(event, "StarSystem") == Str(name) && EventProfile(event) == Ok(p) && StarPos(event) == Ok(pos)
    requires FindSystem(st.systems, name, pos.x, pos.y, pos.z) == Some(i)
    requires ArrivalSpec(st, event, env).st != st
    ensures var e := ArrivalSpec(st, event, env);
      ArrivalSpec(e.st, event, env).st == e.st
  {
    var e := ArrivalSpec(st, event, env);
    var matches := (r: SystemRow) => r.name == name && r.x == pos.x && r.y == pos.y && r.z == pos.z;
    var system := st.systems[i].data;
    var t := env.parseTime(Get(event, "timestamp").s).value;
    KnownSystemWrittenOnlyWhen(st, i, event, name, p, pos, env);
    var stored := StoredProfile(system).value;
    KnownSystemWrite(st, i, event, name, p, pos, env, t, stored);
    FirstIndexSameKeys(st.systems, e.st.systems, matches);
    assert FindSystem(e.st.systems, name, pos.x, pos.y, pos.z) == Some(i);
    WithProfileShape(system, p, env.now);
    ProfileKeysExclude();
    var system' := e.st.systems[i].data;
    assert Get(system', "is_populated") == Bool(true);
    assert StoredProfile(system') == Ok(p);
    IntOfIntValue(env.now);
    assert Int(Get(system', "updated_at")) == Ok(env.now);
  }

  lemma ProfileKeysExclude()
    ensures "is_populated" !in ProfileKeys
  {
  }
}
