/** `HandleBodyScanEvent` (eddnlistener/eddnlistener.go:631-882, eddnlistener.go:155-406)
 *  and `HandleStarScanEvent` (eddnlistener/eddnlistener.go:884-1028,
 *  eddnlistener.go:408-552): a Scan journal event rewrites the body's document, or
 *  creates the body, in a system that must already exist. There is no timestamp gate
 *  and nothing is published. */
module Scan {
  import opened Wrappers
  import opened Json
  import opened Translate
  import opened Store
  import opened Events
  import opened Volcanism

  // ----- Finding the body -----

  /** The body a scan is about: its system's id, its name, its row when it exists, and
   *  the document the handler starts from. */
  datatype BodyTarget = BodyTarget(systemId: int, name: string, row: Option<nat>, base: Doc)

  /** The lookup both handlers share. A system that does not exist ends the handling
   *  quietly; a body that does not exist starts as a document holding only
   *  `created_at`. */
  function ReachBody(st: State, event: Doc, env: Env): (r: Step<BodyTarget>)
    ensures r.Done? && r.value.row.Some? ==> r.value.row.value < |st.bodies|
  {
    var name := Get(event, "StarSystem");
    var bodyName := Get(event, "BodyName");
    if !name.Str? then Stop(Panicked("StarSystem is not a string"))
    else if !bodyName.Str? then Stop(Panicked("BodyName is not a string"))
    else match StarPos(event)
    case Err(m) => Stop(Panicked(m))
    case Ok(pos) =>
      match FindSystem(st.systems, name.s, pos.x, pos.y, pos.z)
      case None => Stop(Handled)
      case Some(i) =>
        match Int(Get(st.systems[i].data, "id"))
        case Err(m) => Stop(Dropped(m))
        case Ok(systemId) =>
          match FindBody(st.bodies, systemId, bodyName.s)
          case Some(j) => Done(BodyTarget(systemId, bodyName.s, Some(j), st.bodies[j].data))
          case None => Done(BodyTarget(systemId, bodyName.s, None, map["created_at" := IntValue(env.now)]))
  }

  /** The lookup, on the store. */
  method FindBodyTarget(store: Store, event: Doc, env: Env) returns (r: Step<BodyTarget>)
    ensures r == ReachBody(store.View(), event, env)
  {
    var systemname := Get(event, "StarSystem");
    if !systemname.Str? {
      return Stop(Panicked("StarSystem is not a string"));
    }
    var bodyname := Get(event, "BodyName");
    if !bodyname.Str? {
      return Stop(Panicked("BodyName is not a string"));
    }
    var position := StarPos(event);
    if position.Err? {
      return Stop(Panicked(position.msg));
    }
    var pos := position.value;
    var found := FindSystem(store.systems, systemname.s, pos.x, pos.y, pos.z);
    if found.None? {
      // System doesn't exist; it is not created here
      return Stop(Handled);
    }
    var systemId := Int(Get(store.systems[found.value].data, "id"));
    if systemId.Err? {
      return Stop(Dropped(systemId.msg));
    }
    var body := FindBody(store.bodies, systemId.value, bodyname.s);
    if body.None? {
      var created: Doc := map[];
      created := created["created_at" := IntValue(env.now)];
      return Done(BodyTarget(systemId.value, bodyname.s, None, created));
    }
    return Done(BodyTarget(systemId.value, bodyname.s, body, store.bodies[body.value].data));
  }

  // ----- The document's pieces -----

  /** A numeric field of the event stored under `out`, divided by `divisor` (a unit
   *  change; 1 stores it as sent); any other type leaves the document as it is. */
  function Scaled(d: Doc, event: Doc, key: string, out: string, divisor: real): Doc
    requires divisor > 0.0
  {
    match Float(Get(event, key))
    case Ok(x) => d[out := Num(x / divisor)]
    case Err(_) => d
  }

  /** `Float` in a position where its error is ignored: the value, or Go's zero. */
  function FloatOrZero(v: Value): real
  {
    match Float(v)
    case Ok(x) => x
    case Err(_) => 0.0
  }

  /** A classification chain: the first row whose journal name equals the event's
   *  string. Any other type, and an unknown name, match nothing. */
  function ClassIndex(table: seq<(string, string)>, v: Value): Option<nat>
  {
    if v.Str? then FirstIndex(table, (row: (string, string)) => row.0 == v.s) else None
  }

  /** A recognised class stores its id (`firstId` plus its place in the chain) and its
   *  name; anything else leaves the document as it is. */
  function WithClass(d: Doc, v: Value, table: seq<(string, string)>, firstId: int,
                     idKey: string, nameKey: string): Doc
  {
    match ClassIndex(table, v)
    case None => d
    case Some(i) => d[idKey := IntValue(firstId + i)][nameKey := Str(table[i].1)]
  }

  /** `TerraformState` and its names, ids 1 to 4. */
  const TerraformStates: seq<(string, string)> := [
    ("", "Not terraformable"),
    ("Terraformable", "Candidate for terraforming"),
    ("Terraforming", "Terraforming completed"),
    ("Terraformed", "Being terraformed")
  ]

  /** `PlanetClass` and its names, ids 21 to 36. */
  const PlanetClasses: seq<(string, string)> := [
    ("Sudarsky class I gas giant", "Class I gas giant"),
    ("Sudarsky class II gas giant", "Class II gas giant"),
    ("Sudarsky class III gas giant", "Class III gas giant"),
    ("Sudarsky class IV gas giant", "Class IV gas giant"),
    ("Sudarsky class V gas giant", "Class V gas giant"),
    ("Earthlike body", "Earth-like world"),
    ("Gas giant with ammonia based life", "Gas giant with ammonia-based life"),
    ("Gas giant with water based life", "Gas giant with water-based life"),
    ("Helium rich gas giant", "Helium-rich gas giant"),
    ("High metal content body", "High metal content world"),
    ("Icy body", "Icy body"),
    ("Metal rich body", "Metal-rich body"),
    ("Rocky body", "Rocky body"),
    ("Rocky ice body", "Rocky ice world"),
    ("Water giant", "Water giant"),
    ("Water world", "Water world")
  ]

  /** One material of the event as stored: an object with a string `Name`, or a panic. */
  function MaterialEntry(v: Value): Step<Doc>
  {
    if !v.Obj? then Stop(Panicked("material is not an object"))
    else
      var name := Get(v.fields, "Name");
      if !name.Str? then Stop(Panicked("material Name is not a string"))
      else
        var entry := map["material_name" := Str(TranslateMaterial(name.s))];
        match Float(Get(v.fields, "Percent"))
        case Ok(share) => Done(entry["share" := Num(share)])
        case Err(_) => Done(entry)
  }

  /** `Materials`: a list is converted element by element and replaces `materials`; nil
   *  and every other type (which is only logged) leave the document as it is. */
  function WithMaterials(d: Doc, v: Value): Step<Doc>
  {
    if !v.List? then Done(d)
    else match ConvertAll(v.items, MaterialEntry)
    case Stop(o) => Stop(o)
    case Done(list) => Done(d["materials" := List(list)])
  }

  /** `Volcanism`: nil, `""` and `No volcanism` leave the document as it is; another
   *  string is taken apart; any other type panics. */
  function WithVolcanism(d: Doc, v: Value): Step<Doc>
  {
    if v == Null || v == Str("") || v == Str("No volcanism") then Done(d)
    else if !v.Str? then Stop(Panicked("Volcanism is not a string"))
    else Done(d["volcanism" := VolcanismValue(DecomposeVolcanism(v.s))])
  }

  function VolcanismValue(p: VolcanismParts): Value
  {
    var fields := VolcanismDoc(p);
    Obj(map k | k in fields :: Str(fields[k]))
  }

  // ----- The planet document -----

  /** Timestamp, orbit, mass and the fixed group of a planet (lines 674-704). */
  function PlanetOrbit(d: Doc, event: Doc, now: int): Doc
  {
    var d := d["updated_at" := IntValue(now)];
    var d := Scaled(d, event, "Periapsis", "arg_of_periapsis", 1.0);
    var d := Scaled(d, event, "DistanceFromArrivalLS", "distance_to_arrival", 1.0);
    var d := Scaled(d, event, "Eccentricity", "orbital_eccentricity", 1.0);
    var d := Scaled(d, event, "MassEM", "earth_masses", 1.0);
    var d := Scaled(d, event, "Gravity", "gravity", 9.80665);
    d["group_id" := IntValue(6)]["group_name" := Str("Planet")]
     ["is_landable" := Get(event, "Landable")]
     ["is_rotational_period_tidally_locked" := Get(event, "TidalLock")]
  }

  /** Name and shape of a planet (lines 730-765): kilometres, days, astronomical units
   *  and atmospheres. */
  function PlanetShape(d: Doc, event: Doc, name: string): Doc
  {
    var d := d["name" := Str(name)];
    var d := Scaled(d, event, "OrbitalInclination", "orbital_inclination", 1.0);
    var d := Scaled(d, event, "OrbitalPeriod", "orbital_period", 1.0);
    var d := Scaled(d, event, "Radius", "radius", 1000.0);
    var d := Scaled(d, event, "RotationPeriod", "rotational_period", 86400.0);
    var d := Scaled(d, event, "SemiMajorAxis", "semi_major_axis", 149597870700.0);
    var d := Scaled(d, event, "SurfacePressure", "surface_pressure", 101325.0);
    Scaled(d, event, "SurfaceTemperature", "surface_temperature", 1.0)
  }

  /** The body scan's document, from the stored one (or the fresh one), in the source's
   *  order. */
  function PlanetDoc(base: Doc, event: Doc, name: string, now: int): Step<Doc>
  {
    match WithMaterials(PlanetOrbit(base, event, now), Get(event, "Materials"))
    case Stop(o) => Stop(o)
    case Done(d) => PlanetTail(PlanetShape(d, event, name), event)
  }

  /** Terraforming state, planet class and volcanism (lines 766-856). */
  function PlanetTail(d: Doc, event: Doc): Step<Doc>
  {
    var d := WithClass(d, Get(event, "TerraformState"), TerraformStates, 1,
                       "terraforming_state_id", "terraforming_state_name");
    var d := WithClass(d, Get(event, "PlanetClass"), PlanetClasses, 21, "type_id", "type");
    WithVolcanism(d, Get(event, "Volcanism"))
  }

  /** The body scan's document, built field by field. */
  method BuildPlanet(base: Doc, event: Doc, name: string, now: int) returns (r: Step<Doc>)
    ensures r == PlanetDoc(base, event, name, now)
  {
    var body := base;
    body := body["updated_at" := IntValue(now)];
    body := Scaled(body, event, "Periapsis", "arg_of_periapsis", 1.0);
    body := Scaled(body, event, "DistanceFromArrivalLS", "distance_to_arrival", 1.0);
    body := Scaled(body, event, "Eccentricity", "orbital_eccentricity", 1.0);
    body := Scaled(body, event, "MassEM", "earth_masses", 1.0);
    body := Scaled(body, event, "Gravity", "gravity", 9.80665);
    body := body["group_id" := IntValue(6)];
    body := body["group_name" := Str("Planet")];
    body := body["is_landable" := Get(event, "Landable")];
    body := body["is_rotational_period_tidally_locked" := Get(event, "TidalLock")];
    assert body == PlanetOrbit(base, event, now);
    var materials := Get(event, "Materials");
    if materials.List? {
      var converted := ConvertEach(materials.items, MaterialEntry);
      if converted.Stop? {
        assert PlanetDoc(base, event, name, now) == Stop(converted.outcome);
        return Stop(converted.outcome);
      }
      body := body["materials" := List(converted.value)];
    }
    assert WithMaterials(PlanetOrbit(base, event, now), materials) == Done(body);
    body := PlanetShape(body, event, name);
    body := WithClass(body, Get(event, "TerraformState"), TerraformStates, 1,
                      "terraforming_state_id", "terraforming_state_name");
    body := WithClass(body, Get(event, "PlanetClass"), PlanetClasses, 21, "type_id", "type");
    ghost var classified := body;
    assert PlanetDoc(base, event, name, now) == WithVolcanism(classified, Get(event, "Volcanism"));
    var volcanism := Get(event, "Volcanism");
    if volcanism != Null && volcanism != Str("") && volcanism != Str("No volcanism") {
      if !volcanism.Str? {
        return Stop(Panicked("Volcanism is not a string"));
      }
      body := body["volcanism" := VolcanismValue(DecomposeVolcanism(volcanism.s))];
    }
    assert WithVolcanism(classified, volcanism) == Done(body);
    return Done(body);
  }

  // ----- The star document -----

  /** The star scan's document, in the source's order. `is_main_star` reads the distance
   *  through `Float`, whose zero stands in for a missing one. */
  function StarDoc(base: Doc, event: Doc, name: string, now: int): Doc
  {
    StarSurface(StarOrbit(base, event, name, now), event)
  }

  /** Timestamp, age, distance, the fixed group and the name of a star. */
  function StarOrbit(base: Doc, event: Doc, name: string, now: int): Doc
  {
    var d := base["updated_at" := IntValue(now)];
    var d := match Int(Get(event, "Age_MY"))
      case Ok(age) => d["age" := IntValue(age)]
      case Err(_) => d;
    var d := Scaled(d, event, "Periapsis", "arg_of_periapsis", 1.0);
    var d := Scaled(d, event, "DistanceFromArrivalLS", "distance_to_arrival", 1.0);
    d["group_id" := IntValue(2)]["group_name" := Str("Star")]["is_landable" := IntValue(0)]
      ["is_main_star" := Bool(FloatOrZero(Get(event, "DistanceFromArrivalLS")) == 0.0)]
      ["is_rotational_period_tidally_locked" := Bool(false)]["name" := Str(name)]
  }

  /** Orbit, mass, size, class and temperature of a star, in solar units and days. */
  function StarSurface(d: Doc, event: Doc): Doc
  {
    var d := Scaled(d, event, "Eccentricity", "orbital_eccentricity", 1.0);
    var d := Scaled(d, event, "OrbitalInclination", "orbital_inclination", 1.0);
    var d := Scaled(d, event, "OrbitalPeriod", "orbital_period", 1.0);
    var d := Scaled(d, event, "RotationPeriod", "rotational_period", 86400.0);
    var d := Scaled(d, event, "SemiMajorAxis", "semi_major_axis", 149597870700.0);
    var d := Scaled(d, event, "StellarMass", "solar_masses", 1.0);
    var d := Scaled(d, event, "Radius", "solar_radius", 695700000.0);
    var d := d["spectral_class" := Get(event, "StarType")];
    Scaled(d, event, "SurfaceTemperature", "surface_temperature", 1.0)
  }

  /** The star scan's document, built field by field. */
  method BuildStar(base: Doc, event: Doc, name: string, now: int) returns (body: Doc)
    ensures body == StarDoc(base, event, name, now)
  {
    body := base;
    body := body["updated_at" := IntValue(now)];
    var age := Int(Get(event, "Age_MY"));
    if age.Ok? {
      body := body["age" := IntValue(age.value)];
    }
    body := Scaled(body, event, "Periapsis", "arg_of_periapsis", 1.0);
    var distance := Float(Get(event, "DistanceFromArrivalLS"));
    var distanceOrZero := 0.0;
    if distance.Ok? {
      distanceOrZero := distance.value;
      body := body["distance_to_arrival" := Num(distance.value / 1.0)];
    }
    body := body["group_id" := IntValue(2)];
    body := body["group_name" := Str("Star")];
    body := body["is_landable" := IntValue(0)];
    if distanceOrZero == 0.0 {
      body := body["is_main_star" := Bool(true)];
    } else {
      body := body["is_main_star" := Bool(false)];
    }
    body := body["is_rotational_period_tidally_locked" := Bool(false)];
    body := body["name" := Str(name)];
    body := Scaled(body, event, "Eccentricity", "orbital_eccentricity", 1.0);
    body := Scaled(body, event, "OrbitalInclination", "orbital_inclination", 1.0);
    body := Scaled(body, event, "OrbitalPeriod", "orbital_period", 1.0);
    body := Scaled(body, event, "RotationPeriod", "rotational_period", 86400.0);
    body := Scaled(body, event, "SemiMajorAxis", "semi_major_axis", 149597870700.0);
    body := Scaled(body, event, "StellarMass", "solar_masses", 1.0);
    body := Scaled(body, event, "Radius", "solar_radius", 695700000.0);
    body := body["spectral_class" := Get(event, "StarType")];
    body := Scaled(body, event, "SurfaceTemperature", "surface_temperature", 1.0);
  }

  // ----- Storing -----

  /** Create or update: an existing body is updated under the id its document holds; a
   *  new one is inserted, which fails on an empty table or when every attempt fails. */
  function StoreBody(st: State, tg: BodyTarget, doc: Doc, env: Env): Effect
  {
    if tg.row.Some? then
      match Int(Get(doc, "id"))
      case Err(m) => Effect(st, Dropped(m))
      case Ok(id) => Effect(UpdateBodySpec(st, id, doc), Handled)
    else
      var st' := InsertBodySpec(st, tg.systemId, tg.name, doc, env.insertOutcomes);
      if NextId(BodyIds(st.bodies)).Some? && InsertSucceeds(env.insertOutcomes)
      then Effect(st', Handled) else Effect(st', Dropped("insert failed"))
  }

  method SaveBody(store: Store, tg: BodyTarget, doc: Doc, env: Env) returns (outcome: Outcome)
    modifies store
    ensures Effect(store.View(), outcome) == StoreBody(old(store.View()), tg, doc, env)
  {
    if tg.row.Some? {
      var bodyId := Int(Get(doc, "id"));
      if bodyId.Err? {
        return Dropped(bodyId.msg);
      }
      store.UpdateBody(bodyId.value, doc);
      return Handled;
    }
    var ok := store.InsertBody(tg.systemId, tg.name, doc, env.insertOutcomes);
    return if ok then Handled else Dropped("insert failed");
  }

  /** What handling a body scan does to the store. */
  function BodyScanSpec(st: State, event: Doc, env: Env): Effect
  {
    match ReachBody(st, event, env)
    case Stop(o) => Effect(st, o)
    case Done(tg) =>
      match PlanetDoc(tg.base, event, tg.name, env.now)
      case Stop(o) => Effect(st, o)
      case Done(doc) => StoreBody(st, tg, doc, env)
  }

  /** What handling a star scan does to the store. */
  function StarScanSpec(st: State, event: Doc, env: Env): Effect
  {
    match ReachBody(st, event, env)
    case Stop(o) => Effect(st, o)
    case Done(tg) => StoreBody(st, tg, StarDoc(tg.base, event, tg.name, env.now), env)
  }

  /** `HandleBodyScanEvent`. */
  method HandleBodyScan(store: Store, event: Doc, env: Env) returns (outcome: Outcome)
    modifies store
    ensures Effect(store.View(), outcome) == BodyScanSpec(old(store.View()), event, env)
  {
    var target := FindBodyTarget(store, event, env);
    if target.Stop? {
      return target.outcome;
    }
    var tg := target.value;
    var body := BuildPlanet(tg.base, event, tg.name, env.now);
    if body.Stop? {
      return body.outcome;
    }
    outcome := SaveBody(store, tg, body.value, env);
  }

  /** `HandleStarScanEvent`. */
  method HandleStarScan(store: Store, event: Doc, env: Env) returns (outcome: Outcome)
    modifies store
    ensures Effect(store.View(), outcome) == StarScanSpec(old(store.View()), event, env)
  {
    var target := FindBodyTarget(store, event, env);
    if target.Stop? {
      return target.outcome;
    }
    var tg := target.value;
    var body := BuildStar(tg.base, event, tg.name, env.now);
    outcome := SaveBody(store, tg, body, env);
  }

  // ----- The document is the stored one overwritten -----

  /** A step's document laid over `b`. */
  function Over(b: Doc, s: Step<Doc>): Step<Doc>
  {
    match s
    case Stop(o) => Stop(o)
    case Done(w) => Done(b + w)
  }

  lemma PutOverlay(b: Doc, w: Doc, k: string, v: Value)
    ensures (b + w)[k := v] == b + w[k := v]
  {
  }

  lemma ScaledOverlay(b: Doc, w: Doc, event: Doc, key: string, out: string, divisor: real)
    requires divisor > 0.0
    ensures Scaled(b + w, event, key, out, divisor) == b + Scaled(w, event, key, out, divisor)
  {
  }

  lemma WithClassOverlay(b: Doc, w: Doc, v: Value, table: seq<(string, string)>, firstId: int,
                         idKey: string, nameKey: string)
    ensures WithClass(b + w, v, table, firstId, idKey, nameKey) == b + WithClass(w, v, table, firstId, idKey, nameKey)
  {
  }

  lemma PlanetOrbitOverlay(b: Doc, w: Doc, event: Doc, now: int)
    ensures PlanetOrbit(b + w, event, now) == b + PlanetOrbit(w, event, now)
  {
    var d0 := w["updated_at" := IntValue(now)];
    PutOverlay(b, w, "updated_at", IntValue(now));
    ScaledOverlay(b, d0, event, "Periapsis", "arg_of_periapsis", 1.0);
    var d1 := Scaled(d0, event, "Periapsis", "arg_of_periapsis", 1.0);
    ScaledOverlay(b, d1, event, "DistanceFromArrivalLS", "distance_to_arrival", 1.0);
    var d2 := Scaled(d1, event, "DistanceFromArrivalLS", "distance_to_arrival", 1.0);
    ScaledOverlay(b, d2, event, "Eccentricity", "orbital_eccentricity", 1.0);
    var d3 := Scaled(d2, event, "Eccentricity", "orbital_eccentricity", 1.0);
    ScaledOverlay(b, d3, event, "MassEM", "earth_masses", 1.0);
    var d4 := Scaled(d3, event, "MassEM", "earth_masses", 1.0);
    ScaledOverlay(b, d4, event, "Gravity", "gravity", 9.80665);
    var d5 := Scaled(d4, event, "Gravity", "gravity", 9.80665);
    PutOverlay(b, d5, "group_id", IntValue(6));
    var d6 := d5["group_id" := IntValue(6)];
    PutOverlay(b, d6, "group_name", Str("Planet"));
    var d7 := d6["group_name" := Str("Planet")];
    PutOverlay(b, d7, "is_landable", Get(event, "Landable"));
    var d8 := d7["is_landable" := Get(event, "Landable")];
    PutOverlay(b, d8, "is_rotational_period_tidally_locked", Get(event, "TidalLock"));
  }

  lemma WithMaterialsOverlay(b: Doc, w: Doc, v: Value)
    ensures WithMaterials(b + w, v) == Over(b, WithMaterials(w, v))
  {
    if v.List? && ConvertAll(v.items, MaterialEntry).Done? {
      PutOverlay(b, w, "materials", List(ConvertAll(v.items, MaterialEntry).value));
    }
  }

  lemma WithVolcanismOverlay(b: Doc, w: Doc, v: Value)
    ensures WithVolcanism(b + w, v) == Over(b, WithVolcanism(w, v))
  {
    if v.Str? {
      PutOverlay(b, w, "volcanism", VolcanismValue(DecomposeVolcanism(v.s)));
    }
  }

  lemma PlanetShapeOverlay(b: Doc, w: Doc, event: Doc, name: string)
    ensures PlanetShape(b + w, event, name) == b + PlanetShape(w, event, name)
  {
    var d0 := w["name" := Str(name)];
    PutOverlay(b, w, "name", Str(name));
    ScaledOverlay(b, d0, event, "OrbitalInclination", "orbital_inclination", 1.0);
    var d1 := Scaled(d0, event, "OrbitalInclination", "orbital_inclination", 1.0);
    ScaledOverlay(b, d1, event, "OrbitalPeriod", "orbital_period", 1.0);
    var d2 := Scaled(d1, event, "OrbitalPeriod", "orbital_period", 1.0);
    ScaledOverlay(b, d2, event, "Radius", "radius", 1000.0);
    var d3 := Scaled(d2, event, "Radius", "radius", 1000.0);
    ScaledOverlay(b, d3, event, "RotationPeriod", "rotational_period", 86400.0);
    var d4 := Scaled(d3, event, "RotationPeriod", "rotational_period", 86400.0);
    ScaledOverlay(b, d4, event, "SemiMajorAxis", "semi_major_axis", 149597870700.0);
    var d5 := Scaled(d4, event, "SemiMajorAxis", "semi_major_axis", 149597870700.0);
    ScaledOverlay(b, d5, event, "SurfacePressure", "surface_pressure", 101325.0);
    var d6 := Scaled(d5, event, "SurfacePressure", "surface_pressure", 101325.0);
    ScaledOverlay(b, d6, event, "SurfaceTemperature", "surface_temperature", 1.0);
  }

  /** The body scan reads nothing of the stored document: it overwrites a set of keys
   *  with values drawn from the event, the body's name and the clock alone, so every
   *  other key of the stored document, `id` and `created_at` among them, is kept. */
  lemma PlanetDocOverlay(base: Doc, event: Doc, name: string, now: int)
    ensures PlanetDoc(base, event, name, now) == Over(base, PlanetDoc(map[], event, name, now))
  {
    assert base + map[] == base;
    PlanetOrbitOverlay(base, map[], event, now);
    var orbit := PlanetOrbit(map[], event, now);
    WithMaterialsOverlay(base, orbit, Get(event, "Materials"));
    var materials := WithMaterials(orbit, Get(event, "Materials"));
    if materials.Done? {
      var d := materials.value;
      PlanetShapeOverlay(base, d, event, name);
      PlanetTailOverlay(base, PlanetShape(d, event, name), event);
    }
  }

  lemma PlanetTailOverlay(b: Doc, w: Doc, event: Doc)
    ensures PlanetTail(b + w, event) == Over(b, PlanetTail(w, event))
  {
    WithClassOverlay(b, w, Get(event, "TerraformState"), TerraformStates, 1,
                     "terraforming_state_id", "terraforming_state_name");
    var d1 := WithClass(w, Get(event, "TerraformState"), TerraformStates, 1,
                        "terraforming_state_id", "terraforming_state_name");
    WithClassOverlay(b, d1, Get(event, "PlanetClass"), PlanetClasses, 21, "type_id", "type");
    var d2 := WithClass(d1, Get(event, "PlanetClass"), PlanetClasses, 21, "type_id", "type");
    WithVolcanismOverlay(b, d2, Get(event, "Volcanism"));
  }

  /** The star scan likewise overwrites a set of keys and keeps every other. */
  lemma StarDocOverlay(base: Doc, event: Doc, name: string, now: int)
    ensures StarDoc(base, event, name, now) == base + StarDoc(map[], event, name, now)
  {
    assert base + map[] == base;
    var d0 := map["updated_at" := IntValue(now)];
    PutOverlay(base, map[], "updated_at", IntValue(now));
    var d1 := match Int(Get(event, "Age_MY")) case Ok(age) => d0["age" := IntValue(age)] case Err(_) => d0;
    if Int(Get(event, "Age_MY")).Ok? {
      PutOverlay(base, d0, "age", IntValue(Int(Get(event, "Age_MY")).value));
    }
    ScaledOverlay(base, d1, event, "Periapsis", "arg_of_periapsis", 1.0);
    var d2 := Scaled(d1, event, "Periapsis", "arg_of_periapsis", 1.0);
    ScaledOverlay(base, d2, event, "DistanceFromArrivalLS", "distance_to_arrival", 1.0);
    var d3 := Scaled(d2, event, "DistanceFromArrivalLS", "distance_to_arrival", 1.0);
    var main := Bool(FloatOrZero(Get(event, "DistanceFromArrivalLS")) == 0.0);
    PutOverlay(base, d3, "group_id", IntValue(2));
    var e1 := d3["group_id" := IntValue(2)];
    PutOverlay(base, e1, "group_name", Str("Star"));
    var e2 := e1["group_name" := Str("Star")];
    PutOverlay(base, e2, "is_landable", IntValue(0));
    var e3 := e2["is_landable" := IntValue(0)];
    PutOverlay(base, e3, "is_main_star", main);
    var e4 := e3["is_main_star" := main];
    PutOverlay(base, e4, "is_rotational_period_tidally_locked", Bool(false));
    var e5 := e4["is_rotational_period_tidally_locked" := Bool(false)];
    PutOverlay(base, e5, "name", Str(name));
    var d4 := e5["name" := Str(name)];
    ScaledOverlay(base, d4, event, "Eccentricity", "orbital_eccentricity", 1.0);
    var d5 := Scaled(d4, event, "Eccentricity", "orbital_eccentricity", 1.0);
    ScaledOverlay(base, d5, event, "OrbitalInclination", "orbital_inclination", 1.0);
    var d6 := Scaled(d5, event, "OrbitalInclination", "orbital_inclination", 1.0);
    ScaledOverlay(base, d6, event, "OrbitalPeriod", "orbital_period", 1.0);
    var d7 := Scaled(d6, event, "OrbitalPeriod", "orbital_period", 1.0);
    ScaledOverlay(base, d7, event, "RotationPeriod", "rotational_period", 86400.0);
    var d8 := Scaled(d7, event, "RotationPeriod", "rotational_period", 86400.0);
    ScaledOverlay(base, d8, event, "SemiMajorAxis", "semi_major_axis", 149597870700.0);
    var d9 := Scaled(d8, event, "SemiMajorAxis", "semi_major_axis", 149597870700.0);
    ScaledOverlay(base, d9, event, "StellarMass", "solar_masses", 1.0);
    var d10 := Scaled(d9, event, "StellarMass", "solar_masses", 1.0);
    ScaledOverlay(base, d10, event, "Radius", "solar_radius", 695700000.0);
    var r := Scaled(d10, event, "Radius", "solar_radius", 695700000.0);
    PutOverlay(base, r, "spectral_class", Get(event, "StarType"));
    var d11 := r["spectral_class" := Get(event, "StarType")];
    ScaledOverlay(base, d11, event, "SurfaceTemperature", "surface_temperature", 1.0);
  }

  // ----- What the scans write -----

  /** The keys a body scan can write, group by group. */
  const PlanetOrbitFields: set<string> := {
    "updated_at", "arg_of_periapsis", "distance_to_arrival", "orbital_eccentricity",
    "earth_masses", "gravity", "group_id", "group_name", "is_landable",
    "is_rotational_period_tidally_locked"
  }
  const PlanetShapeFields: set<string> := {
    "name", "orbital_inclination", "orbital_period", "radius", "rotational_period",
    "semi_major_axis", "surface_pressure", "surface_temperature"
  }
  const PlanetTailFields: set<string> := {
    "materials", "terraforming_state_id", "terraforming_state_name", "type_id", "type", "volcanism"
  }
  const PlanetKeys: set<string> := PlanetOrbitFields + PlanetShapeFields + PlanetTailFields

  /** The keys a star scan can write. */
  const StarOrbitFields: set<string> := {
    "updated_at", "age", "arg_of_periapsis", "distance_to_arrival", "group_id", "group_name",
    "is_landable", "is_main_star", "is_rotational_period_tidally_locked", "name"
  }
  const StarSurfaceFields: set<string> := {
    "orbital_eccentricity", "orbital_inclination", "orbital_period", "rotational_period",
    "semi_major_axis", "solar_masses", "solar_radius", "spectral_class", "surface_temperature"
  }
  const StarKeys: set<string> := StarOrbitFields + StarSurfaceFields

  lemma ScaledKeys(d: Doc, event: Doc, key: string, out: string, divisor: real)
    requires divisor > 0.0
    ensures Scaled(d, event, key, out, divisor).Keys <= d.Keys + {out}
  {
  }

  lemma PlanetOrbitKeys(d: Doc, event: Doc, now: int)
    ensures PlanetOrbit(d, event, now).Keys <= d.Keys + PlanetOrbitFields
  {
    var d0 := d["updated_at" := IntValue(now)];
    var d1 := Scaled(d0, event, "Periapsis", "arg_of_periapsis", 1.0);
    ScaledKeys(d0, event, "Periapsis", "arg_of_periapsis", 1.0);
    var d2 := Scaled(d1, event, "DistanceFromArrivalLS", "distance_to_arrival", 1.0);
    ScaledKeys(d1, event, "DistanceFromArrivalLS", "distance_to_arrival", 1.0);
    var d3 := Scaled(d2, event, "Eccentricity", "orbital_eccentricity", 1.0);
    ScaledKeys(d2, event, "Eccentricity", "orbital_eccentricity", 1.0);
    var d4 := Scaled(d3, event, "MassEM", "earth_masses", 1.0);
    ScaledKeys(d3, event, "MassEM", "earth_masses", 1.0);
    var d5 := Scaled(d4, event, "Gravity", "gravity", 9.80665);
    ScaledKeys(d4, event, "Gravity", "gravity", 9.80665);
    assert d5.Keys <= d.Keys + PlanetOrbitFields;
  }

  lemma PlanetShapeKeys(d: Doc, event: Doc, name: string)
    ensures PlanetShape(d, event, name).Keys <= d.Keys + PlanetShapeFields
  {
    var d0 := d["name" := Str(name)];
    var d1 := Scaled(d0, event, "OrbitalInclination", "orbital_inclination", 1.0);
    ScaledKeys(d0, event, "OrbitalInclination", "orbital_inclination", 1.0);
    var d2 := Scaled(d1, event, "OrbitalPeriod", "orbital_period", 1.0);
    ScaledKeys(d1, event, "OrbitalPeriod", "orbital_period", 1.0);
    var d3 := Scaled(d2, event, "Radius", "radius", 1000.0);
    ScaledKeys(d2, event, "Radius", "radius", 1000.0);
    var d4 := Scaled(d3, event, "RotationPeriod", "rotational_period", 86400.0);
    ScaledKeys(d3, event, "RotationPeriod", "rotational_period", 86400.0);
    var d5 := Scaled(d4, event, "SemiMajorAxis", "semi_major_axis", 149597870700.0);
    ScaledKeys(d4, event, "SemiMajorAxis", "semi_major_axis", 149597870700.0);
    var d6 := Scaled(d5, event, "SurfacePressure", "surface_pressure", 101325.0);
    ScaledKeys(d5, event, "SurfacePressure", "surface_pressure", 101325.0);
    ScaledKeys(d6, event, "SurfaceTemperature", "surface_temperature", 1.0);
  }

  /** A body scan writes only keys of `PlanetKeys`. */
  lemma PlanetDocKeys(base: Doc, event: Doc, name: string, now: int)
    requires PlanetDoc(base, event, name, now).Done?
    ensures PlanetDoc(base, event, name, now).value.Keys <= base.Keys + PlanetKeys
  {
    var d0 := PlanetOrbit(base, event, now);
    PlanetOrbitKeys(base, event, now);
    var m := WithMaterials(d0, Get(event, "Materials"));
    WithMaterialsKeys(d0, Get(event, "Materials"));
    var d := m.value;
    var d1 := PlanetShape(d, event, name);
    PlanetShapeKeys(d, event, name);
    PlanetTailKeys(d1, event);
    assert d1.Keys <= base.Keys + PlanetOrbitFields + {"materials"} + PlanetShapeFields;
  }

  lemma WithMaterialsKeys(d: Doc, v: Value)
    ensures WithMaterials(d, v).Done? ==> WithMaterials(d, v).value.Keys <= d.Keys + {"materials"}
  {
  }

  lemma WithClassKeys(d: Doc, v: Value, table: seq<(string, string)>, firstId: int,
                      idKey: string, nameKey: string)
    ensures WithClass(d, v, table, firstId, idKey, nameKey).Keys <= d.Keys + {idKey, nameKey}
  {
  }

  lemma PlanetTailKeys(d: Doc, event: Doc)
    ensures PlanetTail(d, event).Done? ==> PlanetTail(d, event).value.Keys <= d.Keys + PlanetTailFields
  {
    var d1 := WithClass(d, Get(event, "TerraformState"), TerraformStates, 1,
                        "terraforming_state_id", "terraforming_state_name");
    WithClassKeys(d, Get(event, "TerraformState"), TerraformStates, 1,
                  "terraforming_state_id", "terraforming_state_name");
    var d2 := WithClass(d1, Get(event, "PlanetClass"), PlanetClasses, 21, "type_id", "type");
    WithClassKeys(d1, Get(event, "PlanetClass"), PlanetClasses, 21, "type_id", "type");
  }

  lemma StarOrbitKeys(base: Doc, event: Doc, name: string, now: int)
    ensures StarOrbit(base, event, name, now).Keys <= base.Keys + StarOrbitFields
  {
    var d0 := base["updated_at" := IntValue(now)];
    var d1 := match Int(Get(event, "Age_MY")) case Ok(age) => d0["age" := IntValue(age)] case Err(_) => d0;
    var d2 := Scaled(d1, event, "Periapsis", "arg_of_periapsis", 1.0);
    ScaledKeys(d1, event, "Periapsis", "arg_of_periapsis", 1.0);
    ScaledKeys(d2, event, "DistanceFromArrivalLS", "distance_to_arrival", 1.0);
  }

  lemma StarSurfaceKeys(d: Doc, event: Doc)
    ensures StarSurface(d, event).Keys <= d.Keys + StarSurfaceFields
  {
    var d1 := Scaled(d, event, "Eccentricity", "orbital_eccentricity", 1.0);
    ScaledKeys(d, event, "Eccentricity", "orbital_eccentricity", 1.0);
    var d2 := Scaled(d1, event, "OrbitalInclination", "orbital_inclination", 1.0);
    ScaledKeys(d1, event, "OrbitalInclination", "orbital_inclination", 1.0);
    var d3 := Scaled(d2, event, "OrbitalPeriod", "orbital_period", 1.0);
    ScaledKeys(d2, event, "OrbitalPeriod", "orbital_period", 1.0);
    var d4 := Scaled(d3, event, "RotationPeriod", "rotational_period", 86400.0);
    ScaledKeys(d3, event, "RotationPeriod", "rotational_period", 86400.0);
    var d5 := Scaled(d4, event, "SemiMajorAxis", "semi_major_axis", 149597870700.0);
    ScaledKeys(d4, event, "SemiMajorAxis", "semi_major_axis", 149597870700.0);
    var d6 := Scaled(d5, event, "StellarMass", "solar_masses", 1.0);
    ScaledKeys(d5, event, "StellarMass", "solar_masses", 1.0);
    var d7 := Scaled(d6, event, "Radius", "solar_radius", 695700000.0);
    ScaledKeys(d6, event, "Radius", "solar_radius", 695700000.0);
    var d8 := d7["spectral_class" := Get(event, "StarType")];
    ScaledKeys(d8, event, "SurfaceTemperature", "surface_temperature", 1.0);
  }

  /** A star scan writes only keys of `StarKeys`. */
  lemma StarDocKeys(base: Doc, event: Doc, name: string, now: int)
    ensures StarDoc(base, event, name, now).Keys <= base.Keys + StarKeys
  {
    StarOrbitKeys(base, event, name, now);
    StarSurfaceKeys(StarOrbit(base, event, name, now), event);
  }

  /** Neither scan writes `id` or `created_at`. */
  lemma IdAndCreationNotWritten()
    ensures "id" !in PlanetKeys && "created_at" !in PlanetKeys
    ensures "id" !in StarKeys && "created_at" !in StarKeys
  {
    LacksIdAndCreation(PlanetOrbitFields);
    LacksIdAndCreation(PlanetShapeFields);
    LacksIdAndCreation(PlanetTailFields);
    LacksIdAndCreation(StarOrbitFields);
    LacksIdAndCreation(StarSurfaceFields);
  }

  lemma LacksIdAndCreation(keys: set<string>)
    requires keys in {PlanetOrbitFields, PlanetShapeFields, PlanetTailFields, StarOrbitFields, StarSurfaceFields}
    ensures "id" !in keys && "created_at" !in keys
  {
  }

  // ----- Both scans are one write -----

  /** The body's name as the event gives it (the handlers panic on a non-string). */
  function BodyNameOf(event: Doc): string
  {
    var n := Get(event, "BodyName");
    if n.Str? then n.s else ""
  }

  /** A scan that overwrites the keys of `w`: find the body, lay `w` over its document
   *  (or over the fresh one) and store it. */
  function ScanWrite(st: State, event: Doc, env: Env, w: Doc): Effect
  {
    match ReachBody(st, event, env)
    case Stop(o) => Effect(st, o)
    case Done(tg) => StoreBody(st, tg, tg.base + w, env)
  }

  /** A body scan is the write of the planet fields, or changes nothing when they cannot
   *  be built. */
  lemma BodyScanIsScanWrite(st: State, event: Doc, env: Env)
    ensures var w := PlanetDoc(map[], event, BodyNameOf(event), env.now);
      && (w.Stop? ==> BodyScanSpec(st, event, env).st == st)
      && (w.Done? ==> BodyScanSpec(st, event, env) == ScanWrite(st, event, env, w.value))
  {
    var r := ReachBody(st, event, env);
    if r.Done? {
      var tg := r.value;
      assert tg.name == BodyNameOf(event);
      PlanetDocOverlay(tg.base, event, tg.name, env.now);
      var w := PlanetDoc(map[], event, tg.name, env.now);
      if w.Done? {
        assert PlanetDoc(tg.base, event, tg.name, env.now) == Done(tg.base + w.value);
      } else {
        assert PlanetDoc(tg.base, event, tg.name, env.now).Stop?;
      }
    }
  }

  /** A star scan is the write of the star fields. */
  lemma StarScanIsScanWrite(st: State, event: Doc, env: Env)
    ensures StarScanSpec(st, event, env) == ScanWrite(st, event, env, StarDoc(map[], event, BodyNameOf(event), env.now))
  {
    var r := ReachBody(st, event, env);
    if r.Done? {
      StarDocOverlay(r.value.base, event, r.value.name, env.now);
    }
  }

  /** The lookup sees the same body after a write that keeps every row's searched
   *  columns and the systems. */
  lemma ReachBodyStable(st: State, st': State, event: Doc, env: Env)
    requires st'.systems == st.systems && |st'.bodies| == |st.bodies|
    requires forall k :: 0 <= k < |st.bodies| ==>
      st'.bodies[k] == st.bodies[k].(data := st'.bodies[k].data)
    ensures ReachBody(st, event, env).Done? ==> ReachBody(st', event, env).Done?
    ensures ReachBody(st, event, env).Done? ==>
      var tg := ReachBody(st, event, env).value;
      var tg' := ReachBody(st', event, env).value;
      tg'.systemId == tg.systemId && tg'.name == tg.name && tg'.row == tg.row
  {
    var r := ReachBody(st, event, env);
    if r.Done? {
      var tg := r.value;
      var matches := (b: BodyRow) => b.systemId == tg.systemId && b.name == tg.name;
      FirstIndexSameKeys(st.bodies, st'.bodies, matches);
    }
  }

  /** Writing an existing body again with the same fields changes nothing: every row
   *  with the body's id already holds the document. */
  lemma ScanWriteReplayUpdate(st: State, event: Doc, env: Env, w: Doc)
    requires IdsEmbedded(st) && "id" !in w
    requires ReachBody(st, event, env).Done? && ReachBody(st, event, env).value.row.Some?
    ensures var e := ScanWrite(st, event, env, w);
      ScanWrite(e.st, event, env, w).st == e.st
  {
    var tg := ReachBody(st, event, env).value;
    var j := tg.row.value;
    var doc := tg.base + w;
    var id := st.bodies[j].id;
    assert Get(doc, "id") == IntValue(id);
    IntOfIntValue(id);
    var e := ScanWrite(st, event, env, w);
    assert e.st == UpdateBodySpec(st, id, doc);
    ReachBodyStable(st, e.st, event, env);
    var tg' := ReachBody(e.st, event, env).value;
    assert tg'.base == doc;
    assert doc + w == doc;
    assert UpdateBodySpec(e.st, id, doc) == e.st;
  }

  /** A body the first write inserted is found by the second, which rewrites the same
   *  document: its id is new, so no other row has it. */
  lemma ScanWriteReplayInsert(st: State, event: Doc, env: Env, w: Doc)
    requires IdsEmbedded(st) && "id" !in w
    requires ReachBody(st, event, env).Done? && ReachBody(st, event, env).value.row.None?
    ensures var e := ScanWrite(st, event, env, w);
      ScanWrite(e.st, event, env, w).st == e.st
  {
    var tg := ReachBody(st, event, env).value;
    var doc := tg.base + w;
    var e := ScanWrite(st, event, env, w);
    if NextId(BodyIds(st.bodies)).Some? && InsertSucceeds(env.insertOutcomes) {
      var id := NextId(BodyIds(st.bodies)).value;
      var row := BodyRow(id, tg.systemId, tg.name, doc["id" := IntValue(id)]);
      assert e.st == st.(bodies := st.bodies + [row]);
      ReachInserted(st, event, env, row);
      assert row.data + w == row.data;
      IntOfIntValue(id);
      UpdateInsertedRow(st, id, row);
    }
  }

  /** The lookup finds a body just appended under the name it looked for. */
  lemma ReachInserted(st: State, event: Doc, env: Env, row: BodyRow)
    requires ReachBody(st, event, env).Done? && ReachBody(st, event, env).value.row.None?
    requires row.systemId == ReachBody(st, event, env).value.systemId
    requires row.name == ReachBody(st, event, env).value.name
    ensures var st' := st.(bodies := st.bodies + [row]);
      ReachBody(st', event, env) == Done(BodyTarget(row.systemId, row.name, Some(|st.bodies|), row.data))
  {
    var matches := (b: BodyRow) => b.systemId == row.systemId && b.name == row.name;
    FirstIndexAppend(st.bodies, row, matches);
  }

  /** Updating the appended row under its fresh id with its own document changes
   *  nothing. */
  lemma UpdateInsertedRow(st: State, id: int, row: BodyRow)
    requires NextId(BodyIds(st.bodies)) == Some(id) && row.id == id
    ensures var st' := st.(bodies := st.bodies + [row]);
      UpdateBodySpec(st', id, row.data) == st'
  {
    NextIdFresh(BodyIds(st.bodies));
    assert forall k :: 0 <= k < |st.bodies| ==> st.bodies[k].id == BodyIds(st.bodies)[k];
  }

  /** Writing the same fields twice is writing them once. */
  lemma ScanWriteReplay(st: State, event: Doc, env: Env, w: Doc)
    requires IdsEmbedded(st) && "id" !in w
    ensures var e := ScanWrite(st, event, env, w);
      ScanWrite(e.st, event, env, w).st == e.st
  {
    var r := ReachBody(st, event, env);
    if r.Done? {
      if r.value.row.Some? {
        ScanWriteReplayUpdate(st, event, env, w);
      } else {
        ScanWriteReplayInsert(st, event, env, w);
      }
    }
  }

  /** A scan write keeps every stored document carrying its row's id. */
  lemma ScanWriteKeepsIdsEmbedded(st: State, event: Doc, env: Env, w: Doc)
    requires IdsEmbedded(st) && "id" !in w
    ensures IdsEmbedded(ScanWrite(st, event, env, w).st)
  {
    var r := ReachBody(st, event, env);
    if r.Done? {
      var tg := r.value;
      if tg.row.Some? {
        var id := st.bodies[tg.row.value].id;
        assert Get(tg.base + w, "id") == IntValue(id);
        IntOfIntValue(id);
        UpdateKeepsIdsEmbedded(st, tg.systemId, id, tg.base + w);
      } else {
        InsertKeepsIdsEmbedded(st, "", 0.0, 0.0, 0.0, tg.systemId, tg.base + w, env.insertOutcomes);
      }
    }
  }

  /** What a scan write does: it touches only the bodies table; a known body gets its
   *  stored document with `w` laid over it, every other row is kept, and a new body is
   *  appended with its creation time, its new id and `w`. Nothing is written unless the
   *  system is known. */
  lemma ScanWriteShape(st: State, event: Doc, env: Env, w: Doc)
    requires IdsEmbedded(st) && "id" !in w
    ensures var e := ScanWrite(st, event, env, w);
      && e.st.systems == st.systems && e.st.stations == st.stations
      && e.st.published == st.published
      && (ReachBody(st, event, env).Stop? ==> e.st == st)
      && (e.st != st ==> ReachBody(st, event, env).Done? && e.outcome == Handled)
  {
  }

  /** A known body's stored document after the write: the old one with `w` laid over it;
   *  other bodies are kept. */
  lemma ScanWriteUpdates(st: State, event: Doc, env: Env, w: Doc)
    requires IdsEmbedded(st) && "id" !in w
    requires ReachBody(st, event, env).Done? && ReachBody(st, event, env).value.row.Some?
    ensures var j := ReachBody(st, event, env).value.row.value;
      var e := ScanWrite(st, event, env, w);
      && e.outcome == Handled
      && |e.st.bodies| == |st.bodies|
      && e.st.bodies[j] == st.bodies[j].(data := st.bodies[j].data + w)
      && (forall k :: 0 <= k < |st.bodies| && st.bodies[k].id != st.bodies[j].id ==>
            e.st.bodies[k] == st.bodies[k])
  {
    var j := ReachBody(st, event, env).value.row.value;
    IntOfIntValue(st.bodies[j].id);
    assert Get(st.bodies[j].data + w, "id") == IntValue(st.bodies[j].id);
  }

  /** A new body, when the insert succeeds, is appended with the creation time of this
   *  message, the fields of `w` and its new id. */
  lemma ScanWriteInserts(st: State, event: Doc, env: Env, w: Doc)
    requires "id" !in w && "created_at" !in w
    requires ReachBody(st, event, env).Done? && ReachBody(st, event, env).value.row.None?
    requires NextId(BodyIds(st.bodies)).Some? && InsertSucceeds(env.insertOutcomes)
    ensures var tg := ReachBody(st, event, env).value;
      var e := ScanWrite(st, event, env, w);
      && e.outcome == Handled
      && |e.st.bodies| == |st.bodies| + 1
      && e.st.bodies[..|st.bodies|] == st.bodies
      && var row := e.st.bodies[|st.bodies|];
      && row.systemId == tg.systemId && row.name == tg.name
      && (forall k :: 0 <= k < |st.bodies| ==> st.bodies[k].id < row.id)
      && row.data == w["created_at" := IntValue(env.now)]["id" := IntValue(row.id)]
  {
    var tg := ReachBody(st, event, env).value;
    var e := ScanWrite(st, event, env, w);
    NextIdFresh(BodyIds(st.bodies));
    assert forall k :: 0 <= k < |st.bodies| ==> BodyIds(st.bodies)[k] == st.bodies[k].id;
    assert e.st.bodies[..|st.bodies|] == st.bodies;
    var id := NextId(BodyIds(st.bodies)).value;
    assert tg.base + w == w["created_at" := IntValue(env.now)];
  }

  /** Receiving the same body scan twice stores what receiving it once does. */
  lemma BodyScanReplayIsNoop(st: State, event: Doc, env: Env)
    requires IdsEmbedded(st)
    ensures var e := BodyScanSpec(st, event, env);
      BodyScanSpec(e.st, event, env).st == e.st
  {
    BodyScanIsScanWrite(st, event, env);
    var w := PlanetDoc(map[], event, BodyNameOf(event), env.now);
    if w.Done? {
      PlanetDocKeys(map[], event, BodyNameOf(event), env.now);
      IdAndCreationNotWritten();
      var e := BodyScanSpec(st, event, env);
      ScanWriteReplay(st, event, env, w.value);
      BodyScanIsScanWrite(e.st, event, env);
    }
  }

  /** Receiving the same star scan twice stores what receiving it once does. */
  lemma StarScanReplayIsNoop(st: State, event: Doc, env: Env)
    requires IdsEmbedded(st)
    ensures var e := StarScanSpec(st, event, env);
      StarScanSpec(e.st, event, env).st == e.st
  {
    var w := StarDoc(map[], event, BodyNameOf(event), env.now);
    StarScanIsScanWrite(st, event, env);
    StarDocKeys(map[], event, BodyNameOf(event), env.now);
    IdAndCreationNotWritten();
    var e := StarScanSpec(st, event, env);
    ScanWriteReplay(st, event, env, w);
    StarScanIsScanWrite(e.st, event, env);
  }

  /** Both scan handlers keep every stored document carrying its row's id. */
  lemma ScansKeepIdsEmbedded(st: State, event: Doc, env: Env)
    requires IdsEmbedded(st)
    ensures IdsEmbedded(BodyScanSpec(st, event, env).st)
    ensures IdsEmbedded(StarScanSpec(st, event, env).st)
  {
    BodyScanIsScanWrite(st, event, env);
    var w := PlanetDoc(map[], event, BodyNameOf(event), env.now);
    IdAndCreationNotWritten();
    if w.Done? {
      PlanetDocKeys(map[], event, BodyNameOf(event), env.now);
      ScanWriteKeepsIdsEmbedded(st, event, env, w.value);
    }
    StarScanIsScanWrite(st, event, env);
    StarDocKeys(map[], event, BodyNameOf(event), env.now);
    ScanWriteKeepsIdsEmbedded(st, event, env, StarDoc(map[], event, BodyNameOf(event), env.now));
  }

  // ----- Classification -----

  /** No journal name appears twice in a chain, so the first match is the only one. */
  predicate DistinctNames(table: seq<(string, string)>)
  {
    forall i, j :: 0 <= i < j < |table| ==> table[i].0 != table[j].0
  }

  /** Each journal name of a chain stores its own id and name; a string that is not in the
   *  chain, and every other type, leaves the document as it is. */
  lemma WithClassCases(d: Doc, v: Value, table: seq<(string, string)>, firstId: int,
                       idKey: string, nameKey: string)
    requires DistinctNames(table)
    ensures forall i :: 0 <= i < |table| && v == Str(table[i].0) ==>
      WithClass(d, v, table, firstId, idKey, nameKey) ==
        d[idKey := IntValue(firstId + i)][nameKey := Str(table[i].1)]
    ensures (!v.Str? || forall i :: 0 <= i < |table| ==> table[i].0 != v.s) ==>
      WithClass(d, v, table, firstId, idKey, nameKey) == d
  {
    var p := (row: (string, string)) => v.Str? && row.0 == v.s;
    if v.Str? {
      assert ClassIndex(table, v) == FirstIndex(table, p);
    }
  }

  lemma TerraformStatesDistinct()
    ensures DistinctNames(TerraformStates)
  {
  }

  lemma PlanetClassesDistinct()
    ensures DistinctNames(PlanetClasses)
  {
    forall i, j | 0 <= i < j < |PlanetClasses|
      ensures PlanetClasses[i].0 != PlanetClasses[j].0
    {
      PlanetClassesApart(i / 4, j / 4);
    }
  }

  /** The names in block `a` of four differ from the later names in block `b`. */
  lemma PlanetClassesApart(a: nat, b: nat)
    requires a <= b < 4
    ensures forall i, j :: 4 * a <= i < 4 * a + 4 && 4 * b <= j < 4 * b + 4 && i < j ==>
      PlanetClasses[i].0 != PlanetClasses[j].0
  {
  }

  /** The terraforming states as stored. The two last names are swapped with respect to
   *  the journal's meaning ("Terraforming" is stored as completed and "Terraformed" as
   *  in progress); the model keeps the source's mapping. */
  lemma TerraformStateIds(d: Doc)
    ensures WithClass(d, Str(""), TerraformStates, 1, "terraforming_state_id", "terraforming_state_name")
      == d["terraforming_state_id" := IntValue(1)]["terraforming_state_name" := Str("Not terraformable")]
    ensures WithClass(d, Str("Terraformable"), TerraformStates, 1, "terraforming_state_id", "terraforming_state_name")
      == d["terraforming_state_id" := IntValue(2)]["terraforming_state_name" := Str("Candidate for terraforming")]
    ensures WithClass(d, Str("Terraforming"), TerraformStates, 1, "terraforming_state_id", "terraforming_state_name")
      == d["terraforming_state_id" := IntValue(3)]["terraforming_state_name" := Str("Terraforming completed")]
    ensures WithClass(d, Str("Terraformed"), TerraformStates, 1, "terraforming_state_id", "terraforming_state_name")
      == d["terraforming_state_id" := IntValue(4)]["terraforming_state_name" := Str("Being terraformed")]
    ensures WithClass(d, Null, TerraformStates, 1, "terraforming_state_id", "terraforming_state_name") == d
  {
    TerraformStateAt(d, 0);
    TerraformStateAt(d, 1);
    TerraformStateAt(d, 2);
    TerraformStateAt(d, 3);
    TerraformStatesDistinct();
    WithClassCases(d, Null, TerraformStates, 1, "terraforming_state_id", "terraforming_state_name");
  }

  /** The state at place `i` of the chain stores id `1 + i` and its name. */
  lemma TerraformStateAt(d: Doc, i: nat)
    requires i < |TerraformStates|
    ensures WithClass(d, Str(TerraformStates[i].0), TerraformStates, 1, "terraforming_state_id", "terraforming_state_name")
      == d["terraforming_state_id" := IntValue(1 + i)]["terraforming_state_name" := Str(TerraformStates[i].1)]
  {
    TerraformStatesDistinct();
    WithClassCases(d, Str(TerraformStates[i].0), TerraformStates, 1, "terraforming_state_id", "terraforming_state_name");
  }

  /** Every planet class of the journal gets the type id 21 plus its place in the chain
   *  and its stored name; an unknown class leaves the type unset. */
  lemma PlanetClassIds(d: Doc, v: Value)
    ensures forall i :: 0 <= i < |PlanetClasses| && v == Str(PlanetClasses[i].0) ==>
      WithClass(d, v, PlanetClasses, 21, "type_id", "type") ==
        d["type_id" := IntValue(21 + i)]["type" := Str(PlanetClasses[i].1)]
    ensures (!v.Str? || forall i :: 0 <= i < |PlanetClasses| ==> PlanetClasses[i].0 != v.s) ==>
      WithClass(d, v, PlanetClasses, 21, "type_id", "type") == d
    ensures 21 + |PlanetClasses| - 1 == 36
  {
    PlanetClassesDistinct();
    WithClassCases(d, v, PlanetClasses, 21, "type_id", "type");
  }

  // ----- Materials, volcanism and the star's fields -----

  /** A material is stored exactly when it is an object with a string name: its name
   *  translated, and its share when the percentage is a number. */
  lemma MaterialEntryCases(v: Value)
    ensures MaterialEntry(v).Done? <==> v.Obj? && Get(v.fields, "Name").Str?
    ensures MaterialEntry(v).Done? ==>
      var e := MaterialEntry(v).value;
      var percent := Get(v.fields, "Percent");
      && e["material_name"] == Str(TranslateMaterial(Get(v.fields, "Name").s))
      && e.Keys == (if percent.Num? then {"material_name", "share"} else {"material_name"})
      && (percent.Num? ==> e["share"] == percent)
  {
  }

  /** `materials` is replaced only by a list, converted element for element, in order;
   *  one malformed material ends the handling. */
  lemma WithMaterialsCases(d: Doc, v: Value)
    ensures !v.List? ==> WithMaterials(d, v) == Done(d)
    ensures v.List? ==> (WithMaterials(d, v).Done? <==>
      forall k :: 0 <= k < |v.items| ==> MaterialEntry(v.items[k]).Done?)
    ensures v.List? && WithMaterials(d, v).Done? ==>
      var r := WithMaterials(d, v).value;
      && r.Keys == d.Keys + {"materials"}
      && (forall key :: key in d && key != "materials" ==> r[key] == d[key])
      && r["materials"].List? && |r["materials"].items| == |v.items|
      && (forall k :: 0 <= k < |v.items| ==>
            r["materials"].items[k] == Obj(MaterialEntry(v.items[k]).value))
  {
    if v.List? {
      ConvertAllDoneIff(v.items, MaterialEntry);
      if ConvertAll(v.items, MaterialEntry).Done? {
        ConvertAllElementwise(v.items, MaterialEntry);
      }
    }
  }

  /** Volcanism is skipped when it is absent, empty or `No volcanism`, and any other
   *  type than a string panics. */
  lemma WithVolcanismSkips(d: Doc, v: Value)
    ensures v == Null || v == Str("") || v == Str("No volcanism") ==> WithVolcanism(d, v) == Done(d)
    ensures !v.Null? && !v.Str? ==> WithVolcanism(d, v).Stop? && WithVolcanism(d, v).outcome.Panicked?
  {
  }

  /** A volcanism in the journal's wording is stored, under `volcanism`, as the object of
   *  its kind, its amount and its translated composition; the rest of the document is
   *  kept. */
  lemma VolcanismStored(d: Doc, a: Option<Amount>, k: string, t: Option<Kind>)
    requires PlainWord(k) && VolcanismText(a, k, t) != "No volcanism"
    ensures WithVolcanism(d, Str(VolcanismText(a, k, t))) ==
      Done(d["volcanism" := VolcanismValue(VolcanismParts(KindName(t), AmountName(a), TranslateVolcanism(k)))])
  {
    var s := VolcanismText(a, k, t);
    assert |s| >= |" volcanism"|;
    DecomposeVolcanismText(a, k, t);
  }

  /** The stored volcanism object holds the parts that were found, as strings. */
  lemma VolcanismValueFields(p: VolcanismParts)
    ensures var f := VolcanismValue(p).fields;
      && Get(f, "composition") == Str(p.composition)
      && ("type" in f <==> p.kind.Some?) && ("amount" in f <==> p.amount.Some?)
      && (p.kind.Some? ==> f["type"] == Str(p.kind.value))
      && (p.amount.Some? ==> f["amount"] == Str(p.amount.value))
  {
  }

  /** A unit-changed field leaves every other field as it was. */
  lemma ScaledKeeps(d: Doc, event: Doc, key: string, out: string, divisor: real, k: string)
    requires divisor > 0.0 && k != out && k in d
    ensures k in Scaled(d, event, key, out, divisor) && Scaled(d, event, key, out, divisor)[k] == d[k]
  {
  }

  /** The star fields that the later unit changes do not touch. */
  ghost predicate StarFixed(s: Doc, event: Doc, name: string, now: int)
  {
    var distance := Get(event, "DistanceFromArrivalLS");
    && "is_main_star" in s && s["is_main_star"] == Bool(!distance.Num? || distance.n == 0.0)
    && "updated_at" in s && s["updated_at"] == IntValue(now)
    && "group_id" in s && s["group_id"] == IntValue(2)
    && "group_name" in s && s["group_name"] == Str("Star")
    && "is_landable" in s && s["is_landable"] == IntValue(0)
    && "name" in s && s["name"] == Str(name)
  }

  lemma ScaledKeepsStarFixed(d: Doc, event: Doc, name: string, now: int, key: string, out: string, divisor: real)
    requires divisor > 0.0 && StarFixed(d, event, name, now)
    requires out !in {"is_main_star", "updated_at", "group_id", "group_name", "is_landable", "name"}
    ensures StarFixed(Scaled(d, event, key, out, divisor), event, name, now)
  {
    ScaledKeeps(d, event, key, out, divisor, "is_main_star");
    ScaledKeeps(d, event, key, out, divisor, "updated_at");
    ScaledKeeps(d, event, key, out, divisor, "group_id");
    ScaledKeeps(d, event, key, out, divisor, "group_name");
    ScaledKeeps(d, event, key, out, divisor, "is_landable");
    ScaledKeeps(d, event, key, out, divisor, "name");
  }

  /** The star's fixed and derived fields: it is the main star exactly when its distance
   *  from the arrival point is zero or not a number, and its group, name, class and
   *  radius are those of the event. */
  lemma StarDocFields(base: Doc, event: Doc, name: string, now: int)
    ensures var s := StarDoc(base, event, name, now);
      var radius := Get(event, "Radius");
      && StarFixed(s, event, name, now)
      && s["spectral_class"] == Get(event, "StarType")
      && (radius.Num? ==> s["solar_radius"] == Num(radius.n / 695700000.0))
  {
    StarOrbitFixed(base, event, name, now);
    StarSurfaceKeeps(StarOrbit(base, event, name, now), event, name, now);
  }

  lemma StarOrbitFixed(base: Doc, event: Doc, name: string, now: int)
    ensures StarFixed(StarOrbit(base, event, name, now), event, name, now)
  {
    var d0 := base["updated_at" := IntValue(now)];
    var d1 := match Int(Get(event, "Age_MY")) case Ok(age) => d0["age" := IntValue(age)] case Err(_) => d0;
    var d2 := Scaled(d1, event, "Periapsis", "arg_of_periapsis", 1.0);
    var d3 := Scaled(d2, event, "DistanceFromArrivalLS", "distance_to_arrival", 1.0);
    assert "updated_at" in d3 && d3["updated_at"] == IntValue(now);
  }

  lemma StarSurfaceKeeps(d: Doc, event: Doc, name: string, now: int)
    requires StarFixed(d, event, name, now)
    ensures var s := StarSurface(d, event);
      var radius := Get(event, "Radius");
      && StarFixed(s, event, name, now)
      && s["spectral_class"] == Get(event, "StarType")
      && (radius.Num? ==> s["solar_radius"] == Num(radius.n / 695700000.0))
  {
    ScaledKeepsStarFixed(d, event, name, now, "Eccentricity", "orbital_eccentricity", 1.0);
    var d5 := Scaled(d, event, "Eccentricity", "orbital_eccentricity", 1.0);
    ScaledKeepsStarFixed(d5, event, name, now, "OrbitalInclination", "orbital_inclination", 1.0);
    var d6 := Scaled(d5, event, "OrbitalInclination", "orbital_inclination", 1.0);
    ScaledKeepsStarFixed(d6, event, name, now, "OrbitalPeriod", "orbital_period", 1.0);
    var d7 := Scaled(d6, event, "OrbitalPeriod", "orbital_period", 1.0);
    ScaledKeepsStarFixed(d7, event, name, now, "RotationPeriod", "rotational_period", 86400.0);
    var d8 := Scaled(d7, event, "RotationPeriod", "rotational_period", 86400.0);
    ScaledKeepsStarFixed(d8, event, name, now, "SemiMajorAxis", "semi_major_axis", 149597870700.0);
    var d9 := Scaled(d8, event, "SemiMajorAxis", "semi_major_axis", 149597870700.0);
    ScaledKeepsStarFixed(d9, event, name, now, "StellarMass", "solar_masses", 1.0);
    var d10 := Scaled(d9, event, "StellarMass", "solar_masses", 1.0);
    ScaledKeepsStarFixed(d10, event, name, now, "Radius", "solar_radius", 695700000.0);
    var d11 := Scaled(d10, event, "Radius", "solar_radius", 695700000.0);
    var d12 := d11["spectral_class" := Get(event, "StarType")];
    assert StarFixed(d12, event, name, now);
    ScaledKeepsStarFixed(d12, event, name, now, "SurfaceTemperature", "surface_temperature", 1.0);
    ScaledKeeps(d12, event, "SurfaceTemperature", "surface_temperature", 1.0, "spectral_class");
    if Get(event, "Radius").Num? {
      ScaledKeeps(d12, event, "SurfaceTemperature", "surface_temperature", 1.0, "solar_radius");
    }
  }

}
