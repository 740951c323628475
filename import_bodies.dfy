/** The bodies importer (importbodies.go:62-110): every line of the bodies dump is
 *  decoded, loses its null and empty-list members, and becomes a row of the bodies table
 *  with its id and system id read as unsigned integers. Reading the file and the
 *  transaction calls are not modelled: the importer receives each line decoded. */
module ImportBodies {
  import opened Wrappers
  import opened Json
  import opened Batches

  /** A member the pruning keeps: neither null nor an empty list. */
  predicate Kept(v: Value)
  {
    v != Null && !(v.List? && |v.items| == 0)
  }

  /** The body without its null and empty-list members. */
  function Pruned(body: Doc): Doc
  {
    map k | k in body && Kept(body[k]) :: body[k]
  }

  /** The pruning loop: every key of the decoded body is visited once, in no particular
   *  order, and deleted in place when its value is null or an empty list. */
  method Prune(body: Doc) returns (r: Doc)
    ensures r == Pruned(body)
  {
    r := body;
    var keys := body.Keys;
    while keys != {}
      invariant keys <= body.Keys
      invariant r.Keys == set k | k in body && (k in keys || Kept(body[k]))
      invariant forall k :: k in r ==> r[k] == body[k]
      decreases keys
    {
      var k :| k in keys;
      var v := r[k];
      if v == Null {
        r := r - {k};
      } else {
        match v {
          case List(items) =>
            if |items| == 0 {
              r := r - {k};
            }
          case _ =>
        }
      }
      keys := keys - {k};
    }
  }

  /** After pruning no member is null or an empty list, every other member is kept as it
   *  was, and pruning again changes nothing. */
  lemma PrunedShape(body: Doc)
    ensures forall k :: k in Pruned(body) ==> Pruned(body)[k] != Null
    ensures forall k :: k in Pruned(body) ==> !(Pruned(body)[k].List? && |Pruned(body)[k].items| == 0)
    ensures forall k :: k in body && Kept(body[k]) ==> k in Pruned(body) && Pruned(body)[k] == body[k]
    ensures forall k :: k in Pruned(body) ==> k in body
    ensures Pruned(Pruned(body)) == Pruned(body)
  {
  }

  /** `strconv.ParseUint` of a `json.Number`, base 10: the value must be a number, or the
   *  type assertion panics, and a non-negative integer, or the parse fails. */
  function ParseUint(v: Value): (r: Result<nat>)
    ensures r.Ok? <==> v.Num? && IsInteger(v.n) && v.n >= 0.0
    ensures r.Ok? ==> r.value as real == v.n
  {
    if !v.Num? then Err("interface conversion: value is not a json.Number")
    else if IsInteger(v.n) && v.n >= 0.0 then
      var u: nat := v.n.Floor;
      Ok(u)
    else Err("strconv.ParseUint: invalid syntax")
  }

  /** A row of the bodies table. */
  datatype BodyRecord = BodyRecord(id: nat, systemId: nat, name: string, data: string)

  /** One line: a line that does not decode ends the import (`log.Fatal`); the id and the
   *  system id of the pruned body must parse as unsigned integers and its name must be a
   *  string, or the import panics. `encode` stands for `json.Marshal`. */
  function BodyRecordOf(decoded: Result<Doc>, encode: Doc -> string): Result<Option<BodyRecord>>
  {
    match decoded
    case Err(e) => Err(e)
    case Ok(body) =>
      var pruned := Pruned(body);
      match (ParseUint(Get(pruned, "id")), ParseUint(Get(pruned, "system_id")))
      case (Err(e), _) => Err(e)
      case (_, Err(e)) => Err(e)
      case (Ok(id), Ok(systemId)) =>
        var name := Get(pruned, "name");
        if !name.Str? then Err("interface conversion: name is not a string")
        else Ok(Some(BodyRecord(id, systemId, name.s, encode(pruned))))
  }

  function BodyRows(encode: Doc -> string): Result<Doc> -> Result<Option<BodyRecord>>
  {
    decoded => BodyRecordOf(decoded, encode)
  }

  /** The whole import: lines in order until one fails, which ends the import before the
   *  commit. */
  function ImportBodiesSpec(lines: seq<Result<Doc>>, encode: Doc -> string): Batch<BodyRecord>
  {
    Collect(lines, BodyRows(encode))
  }

  /** The loop body for one line. */
  method ImportBody(decoded: Result<Doc>, encode: Doc -> string) returns (r: Result<Option<BodyRecord>>)
    ensures r == BodyRecordOf(decoded, encode)
  {
    if decoded.Err? {
      return Err(decoded.msg);
    }
    var body := Prune(decoded.value);
    var munged := encode(body);
    var bodyId := ParseUint(Get(body, "id"));
    if bodyId.Err? {
      return Err(bodyId.msg);
    }
    var systemId := ParseUint(Get(body, "system_id"));
    if systemId.Err? {
      return Err(systemId.msg);
    }
    var name := Get(body, "name");
    if !name.Str? {
      return Err("interface conversion: name is not a string");
    }
    return Ok(Some(BodyRecord(bodyId.value, systemId.value, name.s, munged)));
  }

  /** `ImportBodies`. */
  method ImportBodies(lines: seq<Result<Doc>>, encode: Doc -> string) returns (b: Batch<BodyRecord>)
    ensures b == ImportBodiesSpec(lines, encode)
  {
    var inserted: seq<BodyRecord> := [];
    var i := 0;
    while i < |lines|
      invariant 0 <= i <= |lines|
      invariant Collect(lines[..i], BodyRows(encode)) == Batch(inserted, None)
    {
      CollectNext(lines, BodyRows(encode), i);
      var record := ImportBody(lines[i], encode);
      if record.Err? {
        AbortedStaysAborted(lines, BodyRows(encode), i + 1);
        return Batch(inserted, Some(record.msg));
      }
      inserted := inserted + [record.value.value];
      i := i + 1;
    }
    assert lines[..i] == lines;
    return Batch(inserted, None);
  }

  /** An inserted row carries the body's id and system id, both non-negative integers,
   *  and its name, all as decoded, and the encoding of the pruned body. */
  lemma BodyRecordFields(body: Doc, encode: Doc -> string, r: BodyRecord)
    requires BodyRecordOf(Ok(body), encode) == Ok(Some(r))
    ensures Get(body, "id") == Num(r.id as real)
    ensures Get(body, "system_id") == Num(r.systemId as real)
    ensures Get(body, "name") == Str(r.name)
    ensures r.data == encode(Pruned(body))
  {
    var pruned := Pruned(body);
    assert "id" in pruned && "system_id" in pruned && "name" in pruned;
  }

  /** A line is refused exactly when it does not decode, or its id or system id is not a
   *  non-negative integer, or its name is not a string. */
  lemma BodyRefusedIff(decoded: Result<Doc>, encode: Doc -> string)
    ensures BodyRecordOf(decoded, encode).Err? <==>
      || decoded.Err?
      || !(Get(decoded.value, "id").Num? && IsInteger(Get(decoded.value, "id").n) && Get(decoded.value, "id").n >= 0.0)
      || !(Get(decoded.value, "system_id").Num? && IsInteger(Get(decoded.value, "system_id").n)
           && Get(decoded.value, "system_id").n >= 0.0)
      || !Get(decoded.value, "name").Str?
  {
    if decoded.Ok? {
      var body := decoded.value;
      var pruned := Pruned(body);
      assert Get(pruned, "id").Num? <==> Get(body, "id").Num?;
      assert Get(pruned, "id").Num? ==> Get(pruned, "id") == Get(body, "id");
      assert Get(pruned, "system_id").Num? <==> Get(body, "system_id").Num?;
      assert Get(pruned, "system_id").Num? ==> Get(pruned, "system_id") == Get(body, "system_id");
      assert Get(pruned, "name").Str? <==> Get(body, "name").Str?;
    }
  }
}
