/** The persistence helpers of the listener (eddnlistener/eddnlistener.go:1683-1809,
 *  eddnlistener.go:1207-1333) over an in-memory store: three tables of rows whose `data`
 *  column holds a decoded JSON document, and the sequence of deltas published so far.
 *  Tables are sequences so that "the first row the query returns" has a meaning. */
module Store {
  import opened Wrappers
  import opened Json

  datatype SystemRow = SystemRow(id: int, name: string, x: real, y: real, z: real, data: Doc)
  datatype BodyRow = BodyRow(id: int, systemId: int, name: string, data: Doc)
  datatype StationRow = StationRow(id: int, systemId: int, name: string, data: Doc)

  /** A message sent on the publish socket: a topic and a JSON payload. */
  datatype Delta = Delta(topic: string, payload: Doc)

  datatype State = State(
    systems: seq<SystemRow>,
    bodies: seq<BodyRow>,
    stations: seq<StationRow>,
    published: seq<Delta>)

  // ----- Queries -----

  /** The first row satisfying `p`, as `SELECT ... LIMIT 1` returns it. */
  function FirstIndex<T>(rows: seq<T>, p: T -> bool): (r: Option<nat>)
    ensures r.Some? ==> r.value < |rows| && p(rows[r.value])
    ensures r.Some? ==> forall j :: 0 <= j < r.value ==> !p(rows[j])
    ensures r.None? ==> forall j :: 0 <= j < |rows| ==> !p(rows[j])
    decreases |rows|
  {
    if rows == [] then None
    else if p(rows[0]) then Some(0)
    else match FirstIndex(rows[1..], p)
      case None => None
      case Some(i) => Some(i + 1)
  }

  /** `FetchSystem`: the system with this name at these (snapped) coordinates. */
  function FindSystem(rows: seq<SystemRow>, name: string, x: real, y: real, z: real): Option<nat>
  {
    FirstIndex(rows, (r: SystemRow) => r.name == name && r.x == x && r.y == y && r.z == z)
  }

  /** `FetchFirstSystem`: the first system with this name, wherever it is. */
  function FindFirstSystem(rows: seq<SystemRow>, name: string): Option<nat>
  {
    FirstIndex(rows, (r: SystemRow) => r.name == name)
  }

  /** `FetchBody`: the body with this name in this system. */
  function FindBody(rows: seq<BodyRow>, systemId: int, name: string): Option<nat>
  {
    FirstIndex(rows, (r: BodyRow) => r.systemId == systemId && r.name == name)
  }

  /** `FetchStation`: the station with this name in this system. */
  function FindStation(rows: seq<StationRow>, systemId: int, name: string): Option<nat>
  {
    FirstIndex(rows, (r: StationRow) => r.systemId == systemId && r.name == name)
  }

  // ----- Id allocation -----

  function SystemIds(rows: seq<SystemRow>): seq<int>
  {
    seq(|rows|, i requires 0 <= i < |rows| => rows[i].id)
  }

  function BodyIds(rows: seq<BodyRow>): seq<int>
  {
    seq(|rows|, i requires 0 <= i < |rows| => rows[i].id)
  }

  /** `SELECT max(id)`: none for an empty table (SQL NULL). */
  function MaxId(ids: seq<int>): (r: Option<int>)
    ensures r.None? <==> ids == []
    ensures r.Some? ==> r.value in ids
    ensures r.Some? ==> forall i :: 0 <= i < |ids| ==> ids[i] <= r.value
    decreases |ids|
  {
    if ids == [] then None
    else match MaxId(ids[1..])
      case None => Some(ids[0])
      case Some(m) => Some(if ids[0] < m then m else ids[0])
  }

  /** `SELECT max(id) + 1`: on an empty table the NULL does not scan into an int and
   *  the insert gives up. */
  function NextId(ids: seq<int>): Option<int>
  {
    match MaxId(ids)
    case None => None
    case Some(m) => Some(m + 1)
  }

  /** The allocated id is larger than, hence different from, every id in the table. */
  lemma NextIdFresh(ids: seq<int>)
    ensures NextId(ids).Some? <==> ids != []
    ensures NextId(ids).Some? ==> forall i :: 0 <= i < |ids| ==> ids[i] < NextId(ids).value
  {
  }

  // ----- Bounded retry -----

  /** The insert is tried at most this many times. */
  const MaxAttempts := 5

  /** Whether attempt `i` (from 0) of the INSERT succeeds; attempts past the end of the
   *  outcomes fail. The outcomes stand for what other writers do to the table. */
  predicate AttemptSucceeds(outcomes: seq<bool>, i: int)
  {
    0 <= i < |outcomes| && outcomes[i]
  }

  predicate InsertSucceeds(outcomes: seq<bool>)
  {
    exists i :: 0 <= i < MaxAttempts && AttemptSucceeds(outcomes, i)
  }

  /** The retry loop of `InsertSystem`/`InsertBody`: attempt, and on failure count down
   *  `retrying` from 5, stopping at the first success. `ok` is whether the last error is
   *  nil, which is what the caller sees. */
  method RetryInsert(outcomes: seq<bool>) returns (attempts: nat, ok: bool)
    ensures ok == InsertSucceeds(outcomes)
    ensures 1 <= attempts <= MaxAttempts
    ensures ok ==> AttemptSucceeds(outcomes, attempts - 1)
    ensures forall j :: 0 <= j < attempts - 1 ==> !AttemptSucceeds(outcomes, j)
    ensures !ok ==> attempts == MaxAttempts
  {
    var retrying := MaxAttempts;
    attempts := 0;
    ok := false;
    while retrying > 0
      invariant 0 <= retrying <= MaxAttempts
      invariant attempts == MaxAttempts - retrying
      invariant forall j :: 0 <= j < attempts ==> !AttemptSucceeds(outcomes, j)
      decreases retrying
    {
      attempts := attempts + 1;
      if AttemptSucceeds(outcomes, attempts - 1) {
        ok := true;
        return;
      }
      retrying := retrying - 1;
    }
  }

  // ----- Writes, as functions of the state -----

  /** `InsertSystem`: allocate max(id)+1, splice it into the document as `"id"` and insert,
   *  retrying; the same id is used on every attempt. */
  function InsertSystemSpec(st: State, name: string, x: real, y: real, z: real, doc: Doc,
                            outcomes: seq<bool>): State
  {
    match NextId(SystemIds(st.systems))
    case None => st
    case Some(id) =>
      if InsertSucceeds(outcomes) then
        st.(systems := st.systems + [SystemRow(id, name, x, y, z, doc["id" := IntValue(id)])])
      else st
  }

  /** `InsertBody`, as `InsertSystemSpec` on the bodies table. */
  function InsertBodySpec(st: State, systemId: int, name: string, doc: Doc, outcomes: seq<bool>): State
  {
    match NextId(BodyIds(st.bodies))
    case None => st
    case Some(id) =>
      if InsertSucceeds(outcomes) then
        st.(bodies := st.bodies + [BodyRow(id, systemId, name, doc["id" := IntValue(id)])])
      else st
  }

  /** `UPDATE systems SET data = ? WHERE id = ?`: every row with the id. */
  function UpdateSystemSpec(st: State, id: int, doc: Doc): State
  {
    st.(systems := seq(|st.systems|, i requires 0 <= i < |st.systems| =>
      if st.systems[i].id == id then st.systems[i].(data := doc) else st.systems[i]))
  }

  function UpdateBodySpec(st: State, id: int, doc: Doc): State
  {
    st.(bodies := seq(|st.bodies|, i requires 0 <= i < |st.bodies| =>
      if st.bodies[i].id == id then st.bodies[i].(data := doc) else st.bodies[i]))
  }

  /** `UPDATE stations SET data = ? WHERE system_id = ? AND id = ?`. */
  function UpdateStationSpec(st: State, systemId: int, id: int, doc: Doc): State
  {
    st.(stations := seq(|st.stations|, i requires 0 <= i < |st.stations| =>
      if st.stations[i].systemId == systemId && st.stations[i].id == id
      then st.stations[i].(data := doc) else st.stations[i]))
  }

  function PublishSpec(st: State, topic: string, payload: Doc): State
  {
    st.(published := st.published + [Delta(topic, payload)])
  }

  // ----- The invariant the writes keep -----

  /** Every stored document carries its row's id under `"id"`, as the insert splice puts
   *  it there; the handlers rely on it to find the row to update. */
  ghost predicate IdsEmbedded(st: State)
  {
    && (forall i :: 0 <= i < |st.systems| ==> Get(st.systems[i].data, "id") == IntValue(st.systems[i].id))
    && (forall i :: 0 <= i < |st.bodies| ==> Get(st.bodies[i].data, "id") == IntValue(st.bodies[i].id))
    && (forall i :: 0 <= i < |st.stations| ==> Get(st.stations[i].data, "id") == IntValue(st.stations[i].id))
  }

  /** Inserting keeps the invariant, whatever the document held under `"id"` before. */
  lemma InsertKeepsIdsEmbedded(st: State, name: string, x: real, y: real, z: real, systemId: int,
                               doc: Doc, outcomes: seq<bool>)
    requires IdsEmbedded(st)
    ensures IdsEmbedded(InsertSystemSpec(st, name, x, y, z, doc, outcomes))
    ensures IdsEmbedded(InsertBodySpec(st, systemId, name, doc, outcomes))
  {
  }

  /** An update keeps the invariant when the new document carries the id it is stored
   *  under, which holds for a document read from that row and then modified. */
  lemma UpdateKeepsIdsEmbedded(st: State, systemId: int, id: int, doc: Doc)
    requires IdsEmbedded(st)
    requires Get(doc, "id") == IntValue(id)
    ensures IdsEmbedded(UpdateSystemSpec(st, id, doc))
    ensures IdsEmbedded(UpdateBodySpec(st, id, doc))
    ensures IdsEmbedded(UpdateStationSpec(st, systemId, id, doc))
  {
  }

  /** Writing the same station document twice is writing it once. */
  lemma UpdateStationTwice(st: State, systemId: int, id: int, doc: Doc)
    ensures var st1 := UpdateStationSpec(st, systemId, id, doc);
      UpdateStationSpec(st1, systemId, id, doc) == st1
  {
  }

  /** Publishing changes no table. */
  lemma PublishKeepsIdsEmbedded(st: State, topic: string, payload: Doc)
    requires IdsEmbedded(st)
    ensures IdsEmbedded(PublishSpec(st, topic, payload))
  {
  }

  /** An inserted row is new: its id is above every id already in the table, and it is
   *  the only change. */
  lemma InsertSystemAppends(st: State, name: string, x: real, y: real, z: real, doc: Doc,
                            outcomes: seq<bool>)
    requires st.systems != [] && InsertSucceeds(outcomes)
    ensures var st' := InsertSystemSpec(st, name, x, y, z, doc, outcomes);
      && |st'.systems| == |st.systems| + 1
      && st'.systems[..|st.systems|] == st.systems
      && (forall i :: 0 <= i < |st.systems| ==> st.systems[i].id < st'.systems[|st.systems|].id)
      && st'.bodies == st.bodies && st'.stations == st.stations && st'.published == st.published
  {
    NextIdFresh(SystemIds(st.systems));
    assert forall i :: 0 <= i < |st.systems| ==> SystemIds(st.systems)[i] == st.systems[i].id;
    var st' := InsertSystemSpec(st, name, x, y, z, doc, outcomes);
    assert st'.systems[..|st.systems|] == st.systems;
  }

  /** An insert into an empty table fails: there is no max(id) to add one to. */
  lemma InsertIntoEmptyFails(st: State, name: string, x: real, y: real, z: real, doc: Doc,
                             outcomes: seq<bool>)
    requires st.systems == []
    ensures InsertSystemSpec(st, name, x, y, z, doc, outcomes) == st
  {
  }

  // ----- The store -----

  class Store {
    var systems: seq<SystemRow>
    var bodies: seq<BodyRow>
    var stations: seq<StationRow>
    var published: seq<Delta>

    function View(): State
      reads this
    {
      State(systems, bodies, stations, published)
    }

    constructor(st: State)
      ensures View() == st
    {
      systems := st.systems;
      bodies := st.bodies;
      stations := st.stations;
      published := st.published;
    }

    method InsertSystem(name: string, x: real, y: real, z: real, doc: Doc, outcomes: seq<bool>)
      returns (ok: bool)
      modifies this
      ensures View() == InsertSystemSpec(old(View()), name, x, y, z, doc, outcomes)
      ensures ok <==> NextId(SystemIds(old(systems))).Some? && InsertSucceeds(outcomes)
    {
      var next := NextId(SystemIds(systems));
      if next.None? {
        return false;
      }
      var row := SystemRow(next.value, name, x, y, z, doc["id" := IntValue(next.value)]);
      var attempts;
      attempts, ok := RetryInsert(outcomes);
      if ok {
        systems := systems + [row];
      }
    }

    method InsertBody(systemId: int, name: string, doc: Doc, outcomes: seq<bool>)
      returns (ok: bool)
      modifies this
      ensures View() == InsertBodySpec(old(View()), systemId, name, doc, outcomes)
      ensures ok <==> NextId(BodyIds(old(bodies))).Some? && InsertSucceeds(outcomes)
    {
      var next := NextId(BodyIds(bodies));
      if next.None? {
        return false;
      }
      var row := BodyRow(next.value, systemId, name, doc["id" := IntValue(next.value)]);
      var attempts;
      attempts, ok := RetryInsert(outcomes);
      if ok {
        bodies := bodies + [row];
      }
    }

    method UpdateSystem(id: int, doc: Doc)
      modifies this
      ensures View() == UpdateSystemSpec(old(View()), id, doc)
    {
      var i := 0;
      var rows := [];
      while i < |systems|
        invariant 0 <= i <= |systems|
        invariant rows == UpdateSystemSpec(View(), id, doc).systems[..i]
      {
        rows := rows + [if systems[i].id == id then systems[i].(data := doc) else systems[i]];
        i := i + 1;
      }
      systems := rows;
    }

    method UpdateBody(id: int, doc: Doc)
      modifies this
      ensures View() == UpdateBodySpec(old(View()), id, doc)
    {
      var i := 0;
      var rows := [];
      while i < |bodies|
        invariant 0 <= i <= |bodies|
        invariant rows == UpdateBodySpec(View(), id, doc).bodies[..i]
      {
        rows := rows + [if bodies[i].id == id then bodies[i].(data := doc) else bodies[i]];
        i := i + 1;
      }
      bodies := rows;
    }

    method UpdateStation(systemId: int, id: int, doc: Doc)
      modifies this
      ensures View() == UpdateStationSpec(old(View()), systemId, id, doc)
    {
      var i := 0;
      var rows := [];
      while i < |stations|
        invariant 0 <= i <= |stations|
        invariant rows == UpdateStationSpec(View(), systemId, id, doc).stations[..i]
      {
        var r := stations[i];
        rows := rows + [if r.systemId == systemId && r.id == id then r.(data := doc) else r];
        i := i + 1;
      }
      stations := rows;
    }

    /** `publisher.SendMessage(topic, payload)`. */
    method Publish(topic: string, payload: Doc)
      modifies this
      ensures View() == PublishSpec(old(View()), topic, payload)
    {
      published := published + [Delta(topic, payload)];
    }
  }
}
