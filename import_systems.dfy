/** The systems importer (importsystems.go:60-204): every row of the systems CSV dump
 *  becomes a hand-written JSON object and a row of the systems table. Opening the file,
 *  tokenising the CSV and the transaction calls are not modelled; a row is the sequence
 *  of its fields. */
module ImportSystems {
  import opened Wrappers
  import opened Text
  import opened Batches

  type Row = seq<string>

  /** The row builder reads columns 0 to 27. */
  const Width := 28

  /** A written member with the column it comes from. */
  datatype Column = Column(col: nat, member: Member)

  /** An optional member: written only when its column is not empty, its value between
   *  quotes for a string (not escaped) or as it stands for a number. */
  function Opt(line: Row, col: nat, key: string, quoted: bool): seq<Column>
    requires col < |line|
  {
    if line[col] == "" then []
    else [Column(col, Member(key, if quoted then Quote(line[col]) else line[col]))]
  }

  /** The id, the name and the coordinates, which every kept row has. */
  function HeadColumns(line: Row): seq<Column>
    requires |line| >= 6
  {
    [Column(0, Member("id", line[0])), Column(2, Member("name", Quote(line[2]))),
     Column(3, Member("x", line[3])), Column(4, Member("y", line[4])), Column(5, Member("z", line[5]))]
  }

  /** `is_populated`, always written: `true` exactly for the field `1`. */
  function FlagColumn(line: Row): Column
    requires |line| >= Width
  {
    Column(7, Member("is_populated", if line[7] == "1" then "true" else "false"))
  }

  /** The members of a row's document, in the order the builder writes them. */
  function SystemColumns(line: Row): seq<Column>
    requires |line| >= Width
  {
    MiddleColumns(line)
    + Opt(line, 22, "updated_at", false) + Opt(line, 25, "faction", true)
    + Opt(line, 27, "reserve_type", true)
  }

  function Members(cs: seq<Column>): seq<Member>
  {
    seq(|cs|, i requires 0 <= i < |cs| => cs[i].member)
  }

  /** A row of the systems table: the id, coordinates and name columns as the raw CSV
   *  text, and the document. */
  datatype SystemRecord = SystemRecord(id: string, x: string, y: string, z: string, name: string, data: string)

  /** The first of the id, name and coordinate columns that is missing or empty, in the
   *  order the builder looks at them. */
  function HeadGap(line: Row): Option<nat>
  {
    if |line| <= 0 || line[0] == "" then Some(0)
    else if |line| <= 2 || line[2] == "" then Some(2)
    else if |line| <= 3 || line[3] == "" then Some(3)
    else if |line| <= 4 || line[4] == "" then Some(4)
    else if |line| <= 5 || line[5] == "" then Some(5)
    else None
  }

  /** One row: skipped at the first empty id, name or coordinate; a column the builder
   *  reads that the record does not have is an index out of range (a panic); else the
   *  record with its document. */
  function SystemRecordOf(line: Row): Result<Option<SystemRecord>>
  {
    match HeadGap(line)
    case Some(c) => if c < |line| then Ok(None) else Err("index out of range")
    case None =>
      if |line| < Width then Err("index out of range")
      else Ok(Some(SystemRecord(line[0], line[3], line[4], line[5], line[2],
                                RenderObject(Members(SystemColumns(line))))))
  }

  /** One record: refused by the CSV reader when its field count differs from the
   *  header's, else as the builder makes it. */
  function SystemRow(header: Row, line: Row): Result<Option<SystemRecord>>
  {
    if |line| != |header| then Err("wrong number of fields") else SystemRecordOf(line)
  }

  function SystemRows(header: Row): Row -> Result<Option<SystemRecord>>
  {
    line => SystemRow(header, line)
  }

  /** The whole import: records in order until one is refused, which ends the import
   *  before the commit. */
  function ImportSystemsSpec(header: Row, rows: seq<Row>): Batch<SystemRecord>
  {
    Collect(rows, SystemRows(header))
  }

  // ----- The builder -----

  /** `,"key":value` for a number. */
  method WritePlain(buffer: string, key: string, value: string) returns (b: string)
    ensures b == buffer + ("," + MemberText(Member(key, value)))
  {
    b := buffer + ",\"" + key + "\":";
    b := b + value;
  }

  /** `,"key":"value"` for a string. */
  method WriteQuoted(buffer: string, key: string, value: string) returns (b: string)
    ensures b == buffer + ("," + MemberText(Member(key, Quote(value))))
  {
    b := buffer + ",\"" + key + "\":\"";
    b := b + value;
    b := b + "\"";
  }

  /** The buffer holds the object opened and the members written so far. */
  ghost predicate Written(buffer: string, cs: seq<Column>)
  {
    cs != [] && buffer == "{" + JoinMembers(Members(cs))
  }

  /** The text that at most one more member adds. */
  function Piece(extra: seq<Column>): string
    requires |extra| <= 1
  {
    if extra == [] then "" else "," + MemberText(extra[0].member)
  }

  /** Writing the piece of at most one more member keeps the buffer in step. */
  lemma Wrote(before: string, after: string, cs: seq<Column>, extra: seq<Column>)
    requires Written(before, cs) && |extra| <= 1
    requires after == before + Piece(extra)
    ensures Written(after, cs + extra)
  {
    JoinColumns(cs, extra);
    Opened(before, after, JoinMembers(Members(cs)), Piece(extra));
  }

  lemma Opened(before: string, after: string, a: string, p: string)
    requires before == "{" + a && after == before + p
    ensures after == "{" + (a + p)
  {
  }

  /** The members of a non-empty list followed by at most one more. */
  lemma JoinColumns(cs: seq<Column>, extra: seq<Column>)
    requires cs != [] && |extra| <= 1
    ensures JoinMembers(Members(cs + extra)) == JoinMembers(Members(cs)) + Piece(extra)
  {
    if extra == [] {
      assert cs + extra == cs;
    } else {
      assert Members(cs + extra) == Members(cs) + [extra[0].member];
      JoinAppend(Members(cs), extra[0].member);
    }
  }

  /** `ImportSystems`'s loop body: the document is built in the source's order, with a
   *  `continue` as soon as a required field is found empty. */
  method BuildSystem(line: Row) returns (r: Result<Option<SystemRecord>>)
    ensures r == SystemRecordOf(line)
  {
    var buffer := "{";
    if |line| <= 0 {
      return Err("index out of range");
    }
    if line[0] == "" {
      return Ok(None);
    }
    var id := line[0];
    buffer := buffer + "\"id\":" + id;
    ghost var cs := [Column(0, Member("id", id))];
    assert Written(buffer, cs);
    if |line| <= 2 {
      return Err("index out of range");
    }
    if line[2] == "" {
      return Ok(None);
    }
    var name := line[2];
    ghost var before := buffer;
    buffer := WriteQuoted(buffer, "name", name);
    Wrote(before, buffer, cs, [Column(2, Member("name", Quote(name)))]);
    cs := cs + [Column(2, Member("name", Quote(name)))];
    if |line| <= 3 {
      return Err("index out of range");
    }
    if line[3] == "" {
      return Ok(None);
    }
    var x := line[3];
    before := buffer;
    buffer := WritePlain(buffer, "x", x);
    Wrote(before, buffer, cs, [Column(3, Member("x", x))]);
    cs := cs + [Column(3, Member("x", x))];
    if |line| <= 4 {
      return Err("index out of range");
    }
    if line[4] == "" {
      return Ok(None);
    }
    var y := line[4];
    before := buffer;
    buffer := WritePlain(buffer, "y", y);
    Wrote(before, buffer, cs, [Column(4, Member("y", y))]);
    cs := cs + [Column(4, Member("y", y))];
    if |line| <= 5 {
      return Err("index out of range");
    }
    if line[5] == "" {
      return Ok(None);
    }
    var z := line[5];
    before := buffer;
    buffer := WritePlain(buffer, "z", z);
    Wrote(before, buffer, cs, [Column(5, Member("z", z))]);
    cs := cs + [Column(5, Member("z", z))];
    if |line| < Width {
      return Err("index out of range");
    }
    assert cs == HeadColumns(line);
    buffer := WriteOptional(buffer, line, 6, "population", false, cs);
    cs := cs + Opt(line, 6, "population", false);
    buffer := WriteFlag(buffer, line, cs);
    cs := cs + [FlagColumn(line)];
    buffer := WriteOptionals(buffer, line, cs);
    Closed(buffer, Members(SystemColumns(line)));
    buffer := buffer + "}";
    return Ok(Some(SystemRecord(id, x, y, z, name, buffer)));
  }

  /** `is_populated`, from the field `1` or anything else. */
  method WriteFlag(buffer: string, line: Row, ghost cs: seq<Column>) returns (b: string)
    requires |line| >= Width && Written(buffer, cs)
    ensures Written(b, cs + [FlagColumn(line)])
  {
    if line[7] == "1" {
      b := WritePlain(buffer, "is_populated", "true");
    } else {
      b := WritePlain(buffer, "is_populated", "false");
    }
    assert Piece([FlagColumn(line)]) == "," + MemberText(FlagColumn(line).member);
    Wrote(buffer, b, cs, [FlagColumn(line)]);
  }

  /** Closing the buffer renders the object. */
  lemma Closed(buffer: string, ms: seq<Member>)
    requires buffer == "{" + JoinMembers(ms)
    ensures buffer + "}" == RenderObject(ms)
  {
  }

  /** One optional member: written only when its column is not empty. */
  method WriteOptional(buffer: string, line: Row, col: nat, key: string, quoted: bool,
                       ghost cs: seq<Column>) returns (b: string)
    requires col < |line| && Written(buffer, cs)
    ensures Written(b, cs + Opt(line, col, key, quoted))
  {
    b := buffer;
    if line[col] != "" {
      if quoted {
        b := WriteQuoted(b, key, line[col]);
      } else {
        b := WritePlain(b, key, line[col]);
      }
    }
    Wrote(buffer, b, cs, Opt(line, col, key, quoted));
  }

  /** The optional members after the flag, in the source's order. */
  method WriteOptionals(buffer: string, line: Row, ghost cs: seq<Column>) returns (b: string)
    requires |line| >= Width
    requires cs == LeadColumns(line)
    requires Written(buffer, cs)
    ensures Written(b, SystemColumns(line))
  {
    ghost var done := cs;
    b := WriteOptional(buffer, line, 9, "government", true, done);
    done := done + Opt(line, 9, "government", true);
    b := WriteOptional(b, line, 11, "allegiance", true, done);
    done := done + Opt(line, 11, "allegiance", true);
    b := WriteOptional(b, line, 13, "state", true, done);
    done := done + Opt(line, 13, "state", true);
    b := WriteOptional(b, line, 15, "security", true, done);
    done := done + Opt(line, 15, "security", true);
    b := WriteOptional(b, line, 17, "primary_economy", true, done);
    done := done + Opt(line, 17, "primary_economy", true);
    b := WriteOptional(b, line, 18, "power", true, done);
    done := done + Opt(line, 18, "power", true);
    b := WriteOptional(b, line, 19, "power_state", true, done);
    done := done + Opt(line, 19, "power_state", true);
    b := WriteOptional(b, line, 22, "updated_at", false, done);
    done := done + Opt(line, 22, "updated_at", false);
    b := WriteOptional(b, line, 25, "faction", true, done);
    done := done + Opt(line, 25, "faction", true);
    b := WriteOptional(b, line, 27, "reserve_type", true, done);
  }

  /** `ImportSystems`: the row loop over the records after the header. */
  method ImportSystems(header: Row, rows: seq<Row>) returns (b: Batch<SystemRecord>)
    ensures b == ImportSystemsSpec(header, rows)
  {
    var inserted: seq<SystemRecord> := [];
    var i := 0;
    while i < |rows|
      invariant 0 <= i <= |rows|
      invariant Collect(rows[..i], SystemRows(header)) == Batch(inserted, None)
    {
      CollectNext(rows, SystemRows(header), i);
      var line := rows[i];
      if |line| != |header| {
        b := Batch(inserted, Some("wrong number of fields"));
        AbortedStaysAborted(rows, SystemRows(header), i + 1);
        return;
      }
      var record := BuildSystem(line);
      if record.Err? {
        b := Batch(inserted, Some(record.msg));
        AbortedStaysAborted(rows, SystemRows(header), i + 1);
        return;
      }
      if record.value.Some? {
        inserted := inserted + [record.value.value];
      }
      i := i + 1;
    }
    assert rows[..i] == rows;
    return Batch(inserted, None);
  }

  // ----- Properties of a row's document -----

  /** The key each column is written under. */
  const ColumnKeys: map<nat, string> := map[
    0 := "id", 2 := "name", 3 := "x", 4 := "y", 5 := "z", 6 := "population",
    7 := "is_populated", 9 := "government", 11 := "allegiance", 13 := "state",
    15 := "security", 17 := "primary_economy", 18 := "power", 19 := "power_state",
    22 := "updated_at", 25 := "faction", 27 := "reserve_type"]

  /** The columns written as numbers, as they stand; the others but the flag are quoted. */
  const PlainColumns: set<nat> := {0, 3, 4, 5, 6, 22}

  /** The columns written only when not empty. */
  const OptionalColumns: set<nat> := {6, 9, 11, 13, 15, 17, 18, 19, 22, 25, 27}

  /** The columns every kept row writes. */
  const RequiredColumns: set<nat> := {0, 2, 3, 4, 5, 7}

  /** Every member is its column's key with its column's field: as it stands for a
   *  number, between quotes otherwise, and `true` or `false` for the flag. */
  ghost predicate FromLine(cs: seq<Column>, line: Row)
    requires |line| >= Width
  {
    forall i :: 0 <= i < |cs| ==>
      && cs[i].col in ColumnKeys && cs[i].col < Width
      && cs[i].member.key == ColumnKeys[cs[i].col]
      && cs[i].member.text ==
         (if cs[i].col == 7 then (if line[7] == "1" then "true" else "false")
          else if cs[i].col in PlainColumns then line[cs[i].col]
          else Quote(line[cs[i].col]))
  }

  /** Members in strictly increasing column order. */
  ghost predicate Increasing(cs: seq<Column>)
  {
    forall i, j :: 0 <= i < j < |cs| ==> cs[i].col < cs[j].col
  }

  ghost predicate Below(cs: seq<Column>, c: nat)
  {
    forall i :: 0 <= i < |cs| ==> cs[i].col < c
  }

  function Cols(cs: seq<Column>): set<nat>
  {
    set i | 0 <= i < |cs| :: cs[i].col
  }

  /** Whether a kept row writes a member for the column. */
  predicate Expected(line: Row, c: nat)
  {
    c in RequiredColumns || (c in OptionalColumns && c < |line| && line[c] != "")
  }

  /** The members written so far are exactly the expected ones among the columns before
   *  `upto`. */
  ghost predicate Covers(cs: seq<Column>, line: Row, upto: nat)
  {
    && Below(cs, upto)
    && forall c: nat :: c < upto ==> (c in Cols(cs) <==> Expected(line, c))
  }

  /** One more optional member keeps the order, the values and the coverage. */
  lemma GrowOpt(cs: seq<Column>, line: Row, from: nat, col: nat, key: string, quoted: bool)
    requires |line| >= Width && from <= col < Width
    requires Increasing(cs) && Covers(cs, line, from) && FromLine(cs, line)
    requires forall c :: from <= c < col ==> c !in RequiredColumns && c !in OptionalColumns
    requires col in OptionalColumns && col in ColumnKeys && ColumnKeys[col] == key
    requires quoted <==> col !in PlainColumns
    ensures Increasing(cs + Opt(line, col, key, quoted))
    ensures Covers(cs + Opt(line, col, key, quoted), line, col + 1)
    ensures FromLine(cs + Opt(line, col, key, quoted), line)
  {
    var e := Opt(line, col, key, quoted);
    OptCols(line, col, key, quoted);
    ColsAppend(cs, e);
    CoversGrow(cs, e, line, from, col);
    assert col != 7;
  }

  lemma OptCols(line: Row, col: nat, key: string, quoted: bool)
    requires col < |line|
    ensures Cols(Opt(line, col, key, quoted)) == if line[col] == "" then {} else {col}
    ensures Below(Opt(line, col, key, quoted), col + 1)
  {
    var e := Opt(line, col, key, quoted);
    if line[col] != "" {
      assert e[0].col == col;
    }
  }

  /** Adding the members of one column extends the coverage past it. */
  lemma CoversGrow(cs: seq<Column>, e: seq<Column>, line: Row, from: nat, col: nat)
    requires Covers(cs, line, from) && from <= col < |line|
    requires forall c :: from <= c < col ==> c !in RequiredColumns && c !in OptionalColumns
    requires Cols(e) == if line[col] == "" then {} else {col}
    requires Below(e, col + 1)
    requires col in OptionalColumns
    requires Cols(cs + e) == Cols(cs) + Cols(e)
    ensures Covers(cs + e, line, col + 1)
  {
    forall c: nat | c < col + 1 ensures c in Cols(cs + e) <==> Expected(line, c) {
      if c < from {
      } else if c < col {
        assert c !in Cols(cs);
      } else {
        assert c == col;
        assert col !in RequiredColumns;
      }
    }
    forall i | 0 <= i < |cs + e| ensures (cs + e)[i].col < col + 1 {
      if i >= |cs| { assert (cs + e)[i] == e[i - |cs|]; }
    }
  }

  lemma ColsAppend(cs: seq<Column>, e: seq<Column>)
    ensures Cols(cs + e) == Cols(cs) + Cols(e)
  {
    forall c | c in Cols(cs + e) ensures c in Cols(cs) + Cols(e) {
      var i :| 0 <= i < |cs + e| && (cs + e)[i].col == c;
      if i >= |cs| {
        assert e[i - |cs|].col == c;
      }
    }
    forall c | c in Cols(cs) + Cols(e) ensures c in Cols(cs + e) {
      if c in Cols(e) {
        var i :| 0 <= i < |e| && e[i].col == c;
        assert (cs + e)[|cs| + i].col == c;
      } else {
        var i :| 0 <= i < |cs| && cs[i].col == c;
        assert (cs + e)[i].col == c;
      }
    }
  }

  /** A row's document has its members in column order, each from its own column, with
   *  the required members always there and each optional one exactly when its field is
   *  not empty. */
  lemma SystemColumnsShape(line: Row)
    requires |line| >= Width
    ensures Increasing(SystemColumns(line)) && FromLine(SystemColumns(line), line)
    ensures forall c :: c in Cols(SystemColumns(line)) <==> Expected(line, c)
  {
    TailShape(line);
    CoversAll(SystemColumns(line), line);
  }

  lemma TailShape(line: Row)
    requires |line| >= Width
    ensures Increasing(SystemColumns(line)) && Covers(SystemColumns(line), line, Width)
    ensures FromLine(SystemColumns(line), line)
  {
    var cs := MiddleColumns(line);
    MiddleShape(line);
    GrowTail(cs, line, 20, 22, "updated_at", false);
    cs := cs + Opt(line, 22, "updated_at", false);
    GrowTail(cs, line, 23, 25, "faction", true);
    cs := cs + Opt(line, 25, "faction", true);
    GrowTail(cs, line, 26, 27, "reserve_type", true);
  }

  /** `GrowOpt` for the last three columns, with the unused columns before each. */
  lemma GrowTail(cs: seq<Column>, line: Row, from: nat, col: nat, key: string, quoted: bool)
    requires |line| >= Width
    requires (from, col, key, quoted) in {(20, 22, "updated_at", false), (23, 25, "faction", true),
                                          (26, 27, "reserve_type", true)}
    requires Increasing(cs) && Covers(cs, line, from) && FromLine(cs, line)
    ensures Increasing(cs + Opt(line, col, key, quoted))
    ensures Covers(cs + Opt(line, col, key, quoted), line, col + 1)
    ensures FromLine(cs + Opt(line, col, key, quoted), line)
  {
    GrowOpt(cs, line, from, col, key, quoted);
  }

  /** Past the last column nothing is expected, so covering the row's width covers all. */
  lemma CoversAll(cs: seq<Column>, line: Row)
    requires Covers(cs, line, Width)
    ensures forall c :: c in Cols(cs) <==> Expected(line, c)
  {
    forall c | c >= Width ensures !Expected(line, c) && c !in Cols(cs) {
      assert c !in ColumnKeys;
      assert RequiredColumns <= ColumnKeys.Keys && OptionalColumns <= ColumnKeys.Keys;
    }
  }

  /** The members up to the power state. */
  function MiddleColumns(line: Row): seq<Column>
    requires |line| >= Width
  {
    FrontColumns(line)
    + Opt(line, 17, "primary_economy", true) + Opt(line, 18, "power", true)
    + Opt(line, 19, "power_state", true)
  }

  lemma MiddleShape(line: Row)
    requires |line| >= Width
    ensures Increasing(MiddleColumns(line)) && Covers(MiddleColumns(line), line, 20)
    ensures FromLine(MiddleColumns(line), line)
  {
    var cs := FrontColumns(line);
    FrontShape(line);
    GrowMiddle(cs, line, 16, 17, "primary_economy");
    cs := cs + Opt(line, 17, "primary_economy", true);
    GrowMiddle(cs, line, 18, 18, "power");
    cs := cs + Opt(line, 18, "power", true);
    GrowMiddle(cs, line, 19, 19, "power_state");
  }

  /** `GrowOpt` for the economy and the two power columns. */
  lemma GrowMiddle(cs: seq<Column>, line: Row, from: nat, col: nat, key: string)
    requires |line| >= Width
    requires (from, col, key) in {(16, 17, "primary_economy"), (18, 18, "power"), (19, 19, "power_state")}
    requires Increasing(cs) && Covers(cs, line, from) && FromLine(cs, line)
    ensures Increasing(cs + Opt(line, col, key, true))
    ensures Covers(cs + Opt(line, col, key, true), line, col + 1)
    ensures FromLine(cs + Opt(line, col, key, true), line)
  {
    GrowOpt(cs, line, from, col, key, true);
  }

  /** The members up to the security field. */
  function FrontColumns(line: Row): seq<Column>
    requires |line| >= Width
  {
    LeadColumns(line)
    + Opt(line, 9, "government", true) + Opt(line, 11, "allegiance", true)
    + Opt(line, 13, "state", true) + Opt(line, 15, "security", true)
  }

  lemma FrontShape(line: Row)
    requires |line| >= Width
    ensures Increasing(FrontColumns(line)) && Covers(FrontColumns(line), line, 16)
    ensures FromLine(FrontColumns(line), line)
  {
    var cs := LeadColumns(line);
    LeadShape(line);
    GrowFront(cs, line, 8, 9, "government", true);
    cs := cs + Opt(line, 9, "government", true);
    GrowFront(cs, line, 10, 11, "allegiance", true);
    cs := cs + Opt(line, 11, "allegiance", true);
    GrowFront(cs, line, 12, 13, "state", true);
    cs := cs + Opt(line, 13, "state", true);
    GrowFront(cs, line, 14, 15, "security", true);
  }

  /** `GrowOpt` for the four quoted columns after the flag, each after an unused one. */
  lemma GrowFront(cs: seq<Column>, line: Row, from: nat, col: nat, key: string, quoted: bool)
    requires |line| >= Width
    requires (from, col, key, quoted) in {(8, 9, "government", true), (10, 11, "allegiance", true),
                                          (12, 13, "state", true), (14, 15, "security", true)}
    requires Increasing(cs) && Covers(cs, line, from) && FromLine(cs, line)
    ensures Increasing(cs + Opt(line, col, key, quoted))
    ensures Covers(cs + Opt(line, col, key, quoted), line, col + 1)
    ensures FromLine(cs + Opt(line, col, key, quoted), line)
  {
    GrowOpt(cs, line, from, col, key, quoted);
  }

  /** The members every kept row writes, with the population between them. */
  function LeadColumns(line: Row): seq<Column>
    requires |line| >= Width
  {
    HeadColumns(line) + Opt(line, 6, "population", false) + [FlagColumn(line)]
  }

  lemma LeadShape(line: Row)
    requires |line| >= Width
    ensures Increasing(LeadColumns(line)) && Covers(LeadColumns(line), line, 8)
    ensures FromLine(LeadColumns(line), line)
  {
    var cs := HeadColumns(line);
    HeadShape(line);
    GrowOpt(cs, line, 6, 6, "population", false);
    cs := cs + Opt(line, 6, "population", false);
    GrowFlag(cs, line);
  }

  /** A row's document opens with the id, the name and the coordinates, in that order,
   *  and is closed by a brace; the row's columns are the fields the document was built
   *  from. */
  lemma SystemDocHead(line: Row, r: SystemRecord)
    requires SystemRecordOf(line) == Ok(Some(r))
    ensures "{" + ("\"id\":" + line[0] + ",\"name\":\"" + line[2] + "\",\"x\":" + line[3]
                   + ",\"y\":" + line[4] + ",\"z\":" + line[5]) <= r.data
    ensures r.data[|r.data| - 1] == '}'
    ensures r.id == line[0] && r.name == line[2] && r.x == line[3] && r.y == line[4] && r.z == line[5]
  {
    var j := JoinMembers(Members(SystemColumns(line)));
    assert r.data == "{" + j + "}";
    HeadJoined(line);
    HeadText(line);
    PrefixOpened(JoinMembers(Members(HeadColumns(line))), j);
  }

  /** The head's members open the joined members of the whole row. */
  lemma HeadJoined(line: Row)
    requires |line| >= Width
    ensures JoinMembers(Members(HeadColumns(line))) <= JoinMembers(Members(SystemColumns(line)))
  {
    var cs := SystemColumns(line);
    var ms := Members(cs);
    HeadFirst(line);
    assert ms[..5] == Members(HeadColumns(line)) by {
      assert forall i :: 0 <= i < 5 ==> ms[i] == cs[i].member;
    }
    JoinPrefix(ms, 5);
  }

  lemma PrefixOpened(t: string, j: string)
    requires t <= j
    ensures "{" + t <= "{" + j + "}"
  {
    assert ("{" + j + "}")[..|t| + 1] == "{" + t;
  }

  lemma HeadFirst(line: Row)
    requires |line| >= Width
    ensures |SystemColumns(line)| >= 5 && SystemColumns(line)[..5] == HeadColumns(line)
  {
    var h := HeadColumns(line);
    var lead := LeadColumns(line);
    Extended(h, Opt(line, 6, "population", false) + [FlagColumn(line)]);
    var front := FrontColumns(line);
    Extended(lead, Opt(line, 9, "government", true) + Opt(line, 11, "allegiance", true)
             + Opt(line, 13, "state", true) + Opt(line, 15, "security", true));
    var middle := MiddleColumns(line);
    Extended(front, Opt(line, 17, "primary_economy", true) + Opt(line, 18, "power", true)
             + Opt(line, 19, "power_state", true));
    Extended(middle, Opt(line, 22, "updated_at", false) + Opt(line, 25, "faction", true)
             + Opt(line, 27, "reserve_type", true));
    OpensChain(h, lead, front, middle, SystemColumns(line));
  }

  /** A sequence opens itself extended. */
  lemma Extended<T>(a: seq<T>, b: seq<T>)
    ensures |a| <= |a + b| && (a + b)[..|a|] == a
  {
  }

  /** Opening is transitive along a chain of four extensions. */
  lemma OpensChain<T>(a: seq<T>, b: seq<T>, c: seq<T>, d: seq<T>, e: seq<T>)
    requires |a| <= |b| && b[..|a|] == a
    requires |b| <= |c| && c[..|b|] == b
    requires |c| <= |d| && d[..|c|] == c
    requires |d| <= |e| && e[..|d|] == d
    ensures |a| <= |e| && e[..|a|] == a
  {
    assert c[..|a|] == a;
    assert d[..|a|] == a;
  }

  lemma HeadText(line: Row)
    requires |line| >= 6
    ensures JoinMembers(Members(HeadColumns(line))) ==
      "\"id\":" + line[0] + ",\"name\":\"" + line[2] + "\",\"x\":" + line[3]
      + ",\"y\":" + line[4] + ",\"z\":" + line[5]
  {
    var m0, m1, m2 := Member("id", line[0]), Member("name", Quote(line[2])), Member("x", line[3]);
    var m3, m4 := Member("y", line[4]), Member("z", line[5]);
    HeadMembers(line);
    JoinFive(m0, m1, m2, m3, m4);
    HeadPieces(line);
    HeadGlue(line[0], line[2], line[3], line[4], line[5]);
  }

  /** The five pieces of the head, put together. */
  lemma HeadGlue(a: string, b: string, c: string, d: string, e: string)
    ensures "\"id\":" + a + "," + ("\"name\":" + Quote(b)) + "," + ("\"x\":" + c) + ","
      + ("\"y\":" + d) + "," + ("\"z\":" + e) ==
      "\"id\":" + a + ",\"name\":\"" + b + "\",\"x\":" + c + ",\"y\":" + d + ",\"z\":" + e
  {
    LiteralGlue();
  }

  lemma LiteralGlue()
    ensures "," + "\"name\":" + "\"" == ",\"name\":\""
    ensures "\"" + "," + "\"x\":" == "\",\"x\":"
    ensures "," + "\"y\":" == ",\"y\":"
    ensures "," + "\"z\":" == ",\"z\":"
  {
  }

  lemma HeadMembers(line: Row)
    requires |line| >= 6
    ensures Members(HeadColumns(line)) == [Member("id", line[0]), Member("name", Quote(line[2])),
      Member("x", line[3]), Member("y", line[4]), Member("z", line[5])]
  {
  }

  /** The text of each member of the head. */
  lemma HeadPieces(line: Row)
    requires |line| >= 6
    ensures MemberText(Member("id", line[0])) == "\"id\":" + line[0]
    ensures MemberText(Member("name", Quote(line[2]))) == "\"name\":" + Quote(line[2])
    ensures MemberText(Member("x", line[3])) == "\"x\":" + line[3]
    ensures MemberText(Member("y", line[4])) == "\"y\":" + line[4]
    ensures MemberText(Member("z", line[5])) == "\"z\":" + line[5]
  {
    KeyText("id", line[0], "\"id\":");
    KeyText("name", Quote(line[2]), "\"name\":");
    KeyText("x", line[3], "\"x\":");
    KeyText("y", line[4], "\"y\":");
    KeyText("z", line[5], "\"z\":");
  }

  /** A member's text is its quoted key, a colon and its value. */
  lemma KeyText(key: string, text: string, lead: string)
    requires lead == "\"" + key + "\":"
    ensures MemberText(Member(key, text)) == lead + text
  {
  }

  /** Five members joined. */
  lemma JoinFive(m0: Member, m1: Member, m2: Member, m3: Member, m4: Member)
    ensures JoinMembers([m0, m1, m2, m3, m4]) == MemberText(m0) + "," + MemberText(m1) + ","
      + MemberText(m2) + "," + MemberText(m3) + "," + MemberText(m4)
  {
    assert JoinMembers([m0]) == MemberText(m0);
    JoinAppend([m0], m1);
    assert [m0] + [m1] == [m0, m1];
    JoinAppend([m0, m1], m2);
    assert [m0, m1] + [m2] == [m0, m1, m2];
    JoinAppend([m0, m1, m2], m3);
    assert [m0, m1, m2] + [m3] == [m0, m1, m2, m3];
    JoinAppend([m0, m1, m2, m3], m4);
    assert [m0, m1, m2, m3] + [m4] == [m0, m1, m2, m3, m4];
  }

  lemma HeadShape(line: Row)
    requires |line| >= Width
    ensures Increasing(HeadColumns(line)) && Covers(HeadColumns(line), line, 6)
    ensures FromLine(HeadColumns(line), line)
  {
    HeadCovers(line);
    HeadFromLine(line);
  }

  lemma HeadCovers(line: Row)
    requires |line| >= 6
    ensures Increasing(HeadColumns(line)) && Covers(HeadColumns(line), line, 6)
  {
    var cs := HeadColumns(line);
    assert Cols(cs) == {0, 2, 3, 4, 5} by {
      assert cs[0].col == 0 && cs[1].col == 2 && cs[2].col == 3 && cs[3].col == 4 && cs[4].col == 5;
    }
  }

  lemma HeadFromLine(line: Row)
    requires |line| >= Width
    ensures FromLine(HeadColumns(line), line)
  {
    assert ColumnKeys[0] == "id" && ColumnKeys[2] == "name" && ColumnKeys[3] == "x"
      && ColumnKeys[4] == "y" && ColumnKeys[5] == "z";
    assert 0 in PlainColumns && 2 !in PlainColumns && 3 in PlainColumns && 4 in PlainColumns
      && 5 in PlainColumns;
  }

  lemma GrowFlag(cs: seq<Column>, line: Row)
    requires |line| >= Width
    requires Increasing(cs) && Covers(cs, line, 7) && FromLine(cs, line)
    ensures Increasing(cs + [FlagColumn(line)]) && Covers(cs + [FlagColumn(line)], line, 8)
    ensures FromLine(cs + [FlagColumn(line)], line)
  {
    var e := [FlagColumn(line)];
    ColsAppend(cs, e);
    assert Cols(e) == {7} by { assert e[0].col == 7; }
  }
}
