/** What every handler shares: the environment the source reads from the outside world,
 *  the outcome of handling one message, the star position of an event and the delta
 *  entries the reconcilers publish. */
module Events {
  import opened Wrappers
  import opened Json
  import opened Coord
  import opened Store

  /** The outside world: the clock (`time.Now().Unix()`), RFC 3339 parsing of a timestamp
   *  (`time.Parse`, `None` on a parse error) and whether each INSERT attempt succeeds. */
  datatype Env = Env(now: int, parseTime: string -> Option<int>, insertOutcomes: seq<bool>)

  /** How handling a message ended. `Dropped` is a logged error after which the handler
   *  returns; `Panicked` is a failed type assertion or `assertNil`, which in the source
   *  ends the listener process. Neither happens after the handler's first write. */
  datatype Outcome = Handled | Dropped(reason: string) | Panicked(reason: string)

  datatype Effect = Effect(st: State, outcome: Outcome)

  /** A step of a handler that either yields a value or ends the handling. */
  datatype Step<+T> = Done(value: T) | Stop(outcome: Outcome)

  /** A system position, each component snapped by `fixCoord`. */
  datatype Position = Position(x: real, y: real, z: real)

  /** `event["StarPos"].([]interface{})[0..2]`, each through `Float`, `assertNil` and
   *  `fixCoord`. A missing or short list, or a component that is not a number, panics. */
  function StarPos(event: Doc): Result<Position>
  {
    var p := Get(event, "StarPos");
    if !p.List? || |p.items| < 3 then Err("StarPos is not a list of three")
    else match (Float(p.items[0]), Float(p.items[1]), Float(p.items[2]))
      case (Ok(x), Ok(y), Ok(z)) => Ok(Position(FixCoord(x), FixCoord(y), FixCoord(z)))
      case _ => Err("StarPos component is not a number")
  }

  /** A position that was read is on the 1/32 grid and within 1/64 of the sent one. */
  lemma StarPosSnapped(event: Doc)
    requires StarPos(event).Ok?
    ensures var p := Get(event, "StarPos").items;
      var pos := StarPos(event).value;
      && p[0].Num? && p[1].Num? && p[2].Num?
      && pos.x == FixCoord(p[0].n) && pos.y == FixCoord(p[1].n) && pos.z == FixCoord(p[2].n)
      && OnGrid(pos.x) && OnGrid(pos.y) && OnGrid(pos.z)
  {
    var p := Get(event, "StarPos").items;
    FixCoordOnGrid(p[0].n);
    FixCoordOnGrid(p[1].n);
    FixCoordOnGrid(p[2].n);
  }

  /** One field's share of a delta: the stored and the new value under `oldKey` and
   *  `newKey` when they differ and the stored one is not empty. */
  function Change(oldKey: string, newKey: string, stored: string, current: Value): Doc
  {
    if Str(stored) != current && stored != "" then map[oldKey := Str(stored), newKey := current]
    else map[]
  }

  /** A delta entry is present exactly when the value changed from a non-empty one. */
  lemma ChangeCases(oldKey: string, newKey: string, stored: string, current: Value)
    requires oldKey != newKey
    ensures oldKey in Change(oldKey, newKey, stored, current) <==> Str(stored) != current && stored != ""
    ensures newKey in Change(oldKey, newKey, stored, current) <==> Str(stored) != current && stored != ""
    ensures oldKey in Change(oldKey, newKey, stored, current) ==>
      Change(oldKey, newKey, stored, current)[oldKey] == Str(stored) &&
      Change(oldKey, newKey, stored, current)[newKey] == current
    ensures Change(oldKey, newKey, stored, current).Keys <= {oldKey, newKey}
  {
  }

  /** The comparison step of the reconcilers: a differing field makes an update
   *  required, and adds old and new values to the delta when the stored value is not
   *  empty. */
  method CompareField(update: Doc, required: bool, oldKey: string, newKey: string,
                      stored: string, current: Value)
    returns (update': Doc, required': bool)
    ensures update' == update + Change(oldKey, newKey, stored, current)
    ensures required' == (required || Str(stored) != current)
  {
    update', required' := update, required;
    if Str(stored) != current {
      required' := true;
      if stored != "" {
        update' := update'[oldKey := Str(stored)];
        update' := update'[newKey := current];
      }
    }
  }

  // ----- Lists converted element by element -----

  /** A list converted element by element, as the handlers' `for i := range` loops
   *  build `dbcommodities` and `materialsJson`; the first element whose conversion ends
   *  the handling ends it for the list. */
  function ConvertAll(items: seq<Value>, f: Value -> Step<Doc>): Step<seq<Value>>
  {
    if items == [] then Done([])
    else match ConvertAll(items[..|items| - 1], f)
    case Stop(o) => Stop(o)
    case Done(prefix) =>
      match f(items[|items| - 1])
      case Stop(o) => Stop(o)
      case Done(d) => Done(prefix + [Obj(d)])
  }

  /** The loop. */
  method ConvertEach(items: seq<Value>, f: Value -> Step<Doc>) returns (r: Step<seq<Value>>)
    ensures r == ConvertAll(items, f)
  {
    var built: seq<Value> := [];
    var i := 0;
    while i < |items|
      invariant 0 <= i <= |items|
      invariant ConvertAll(items[..i], f) == Done(built)
    {
      assert items[..i + 1][..i] == items[..i];
      var entry := f(items[i]);
      if entry.Stop? {
        assert ConvertAll(items[..i + 1], f) == Stop(entry.outcome);
        StopPropagates(items, f, i + 1, entry.outcome);
        return Stop(entry.outcome);
      }
      built := built + [Obj(entry.value)];
      i := i + 1;
    }
    assert items[..i] == items;
    return Done(built);
  }

  /** Once a prefix ends the handling, so does the whole list, with the same outcome. */
  lemma {:induction false} StopPropagates(items: seq<Value>, f: Value -> Step<Doc>, n: nat, o: Outcome)
    requires n <= |items| && ConvertAll(items[..n], f) == Stop(o)
    ensures ConvertAll(items, f) == Stop(o)
    decreases |items| - n
  {
    if n < |items| {
      assert items[..n + 1][..n] == items[..n];
      StopPropagates(items, f, n + 1, o);
    } else {
      assert items[..n] == items;
    }
  }

  /** The list is converted exactly when every element is. */
  lemma {:induction false} ConvertAllDoneIff(items: seq<Value>, f: Value -> Step<Doc>)
    ensures ConvertAll(items, f).Done? <==> forall k :: 0 <= k < |items| ==> f(items[k]).Done?
  {
    if items != [] {
      var n := |items| - 1;
      var prefix := items[..n];
      ConvertAllDoneIff(prefix, f);
      assert forall k :: 0 <= k < n ==> prefix[k] == items[k];
      if !ConvertAll(prefix, f).Done? {
        var k :| 0 <= k < n && !f(prefix[k]).Done?;
        assert items[k] == prefix[k];
      }
    }
  }

  /** The converted list has the input's length and order: its k-th element is the k-th
   *  element converted. */
  lemma {:induction false} ConvertAllElementwise(items: seq<Value>, f: Value -> Step<Doc>)
    requires ConvertAll(items, f).Done?
    ensures |ConvertAll(items, f).value| == |items|
    ensures forall k :: 0 <= k < |items| ==>
      f(items[k]).Done? && ConvertAll(items, f).value[k] == Obj(f(items[k]).value)
  {
    if items != [] {
      var n := |items| - 1;
      var prefix := items[..n];
      ConvertAllElementwise(prefix, f);
      forall k | 0 <= k < n
        ensures f(items[k]).Done? && ConvertAll(items, f).value[k] == Obj(f(items[k]).value)
      {
        assert prefix[k] == items[k];
      }
    }
  }

  /** The delta's location entries: system name and snapped coordinates. */
  function Located(delta: Doc, name: string, pos: Position): Doc
  {
    delta["systemname" := Str(name)]["x" := Num(pos.x)]["y" := Num(pos.y)]["z" := Num(pos.z)]
  }

  /** The first index search sees rows appended at the end only when none before match. */
  lemma FirstIndexAppend<T>(rows: seq<T>, row: T, p: T -> bool)
    requires FirstIndex(rows, p).None? && p(row)
    ensures FirstIndex(rows + [row], p) == Some(|rows|)
  {
    var r := FirstIndex(rows + [row], p);
    assert (rows + [row])[|rows|] == row;
    assert forall j :: 0 <= j < |rows| ==> (rows + [row])[j] == rows[j];
  }

  /** Searching is not affected by a change that keeps every row's searched columns. */
  lemma FirstIndexSameKeys<T>(rows: seq<T>, rows': seq<T>, p: T -> bool)
    requires |rows| == |rows'|
    requires forall i :: 0 <= i < |rows| ==> p(rows[i]) == p(rows'[i])
    ensures FirstIndex(rows, p) == FirstIndex(rows', p)
  {
  }
}
