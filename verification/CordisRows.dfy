/** The row list behind the native user layer: rows with an id are fields of a document, insert rows
    keep their place. Loading, editing and dumping at the level of rows. */
module CordisRows {
  import opened Wrappers

  // Parsed YAML. Dict keeps no key order: the source compares mappings without it.
  datatype Value = Null | Text(text: string) | Other(image: string) | Items(items: seq<Value>)
                 | Dict(fields: map<string, Value>)

  datatype Entry = Id(id: string) | Raw(row: Value)

  // order: the ids as the dictionary iterates them; rows: the places of the file last loaded.
  datatype Document = Document(fields: map<string, Value>, order: seq<string>, rows: seq<Entry>)

  const EMPTY := Document(map[], [], [])

  // What the YAML layer prints and parses back: no mapping has an empty field name.
  predicate IsClean(v: Value) {
    match v
    case Dict(fields) => forall k | k in fields.Keys :: k != "" && IsClean(fields[k])
    case Items(items) => forall i | 0 <= i < |items| :: IsClean(items[i])
    case _ => true
  }

  // ---- Loading ----

  predicate IsIdRow(row: Value) {
    row.Dict? && "id" in row.fields && row.fields["id"].Text? && row.fields["id"].text != "" && "insert" !in row.fields
  }

  predicate IsInsertRow(row: Value) {
    row.Dict? && row.fields.Keys == {"insert"} && row.fields["insert"].Items? &&
    forall i | 0 <= i < |row.fields["insert"].items| :: row.fields["insert"].items[i].Dict?
  }

  function AddRow(d: Document, row: Value): Result<Document> {
    if !row.Dict? then Conflict
    else if "id" in row.fields then
      if !IsIdRow(row) || row.fields["id"].text in d.fields then Conflict
      else
        var id := row.fields["id"].text;
        Ok(Document(d.fields[id := Dict(row.fields - {"id"})], d.order + [id], d.rows + [Id(id)]))
    else if IsInsertRow(row) then Ok(d.(rows := d.rows + [Raw(row)]))
    else Conflict
  }

  function LoadRows(rows: seq<Value>): Result<Document> {
    if rows == [] then Ok(EMPTY)
    else
      var d :- LoadRows(rows[..|rows| - 1]);
      AddRow(d, rows[|rows| - 1])
  }

  function Load(v: Value): Result<Document> {
    if !IsClean(v) then Conflict
    else if v.Null? then Ok(EMPTY)
    else if v.Items? then LoadRows(v.items)
    else Conflict
  }

  // ---- Dumping ----

  // The id does not contradict the row.
  predicate IsNamed(id: string, row: Value) {
    id != "" && row.Dict? && ("id" in row.fields ==> row.fields["id"] == Text(id))
  }

  predicate Survives(e: Entry, ids: set<string>) {
    e.Id? ==> e.id in ids
  }

  function Survivors(entries: seq<Entry>, ids: set<string>): (kept: seq<Entry>)
    ensures forall e :: e in kept <==> e in entries && Survives(e, ids)
  {
    if entries == [] then []
    else
      var last := entries[|entries| - 1];
      Survivors(entries[..|entries| - 1], ids) + if Survives(last, ids) then [last] else []
  }

  // The ids of the dictionary without a place in the file, in the order they came.
  function Additions(order: seq<string>, rows: seq<Entry>): (added: seq<Entry>)
    ensures forall e :: e in added <==> e.Id? && e.id in order && e !in rows
  {
    if order == [] then []
    else
      var last := order[|order| - 1];
      Additions(order[..|order| - 1], rows) + if Id(last) !in rows then [Id(last)] else []
  }

  function Listing(d: Document): seq<Entry> {
    Survivors(d.rows, d.fields.Keys) + Additions(d.order, d.rows)
  }

  function RowOf(fields: map<string, Value>, e: Entry): Value {
    match e
    case Raw(row) => row
    case Id(id) => if id in fields && fields[id].Dict? then Dict(fields[id].fields["id" := Text(id)]) else Null
  }

  function RowsOf(fields: map<string, Value>, entries: seq<Entry>): (rows: seq<Value>)
    ensures |rows| == |entries| && forall i | 0 <= i < |rows| :: rows[i] == RowOf(fields, entries[i])
  {
    seq(|entries|, i requires 0 <= i < |entries| => RowOf(fields, entries[i]))
  }

  predicate AreNamed(fields: map<string, Value>) {
    forall id | id in fields.Keys :: IsNamed(id, fields[id])
  }

  // The encoded rows pass the loader once more before they are returned.
  function Dump(d: Document): Result<Value> {
    if !AreNamed(d.fields) then Conflict
    else
      var v := Items(RowsOf(d.fields, Listing(d)));
      if Load(v).Ok? then Ok(v) else Conflict
  }

  // ---- What loading means ----

  function EntryOf(row: Value): Entry {
    if IsIdRow(row) then Id(row.fields["id"].text) else Raw(row)
  }

  function EntriesOf(rows: seq<Value>): (entries: seq<Entry>)
    ensures |entries| == |rows| && forall i | 0 <= i < |rows| :: entries[i] == EntryOf(rows[i])
  {
    seq(|rows|, i requires 0 <= i < |rows| => EntryOf(rows[i]))
  }

  predicate HaveUniqueIds(entries: seq<Entry>) {
    forall i, j | 0 <= i < j < |entries| :: entries[i].Id? ==> entries[i] != entries[j]
  }

  predicate IsRowList(rows: seq<Value>) {
    (forall i | 0 <= i < |rows| :: IsIdRow(rows[i]) || IsInsertRow(rows[i])) && HaveUniqueIds(EntriesOf(rows))
  }

  ghost predicate Holds(d: Document, rows: seq<Value>) {
    && d.rows == EntriesOf(rows)
    && (forall id :: id in d.fields.Keys <==> Id(id) in d.rows)
    && (forall i | 0 <= i < |rows| :: IsIdRow(rows[i]) ==>
          rows[i].fields["id"].text in d.fields && d.fields[rows[i].fields["id"].text] == Dict(rows[i].fields - {"id"}))
  }

  ghost predicate IsOrdered(d: Document) {
    (forall i, j | 0 <= i < j < |d.order| :: d.order[i] != d.order[j]) && forall id :: id in d.order <==>
      id in d.fields.Keys
  }

  // A list loads if and only if each row is of one of the two forms and no id comes twice; the
  // document then has one entry a row and under each id that row's other fields.
  lemma {:induction false} LoadedHolds(rows: seq<Value>)
    ensures LoadRows(rows).Ok? <==> IsRowList(rows)
    ensures LoadRows(rows).Ok? ==> Holds(LoadRows(rows).value, rows) && IsOrdered(LoadRows(rows).value)
    decreases |rows|
  {
    hide IsRowList, Holds, AddRow, IsOrdered;
    if rows == [] {
      EmptyHolds();
    } else {
      var front, last := rows[..|rows| - 1], rows[|rows| - 1];
      LoadedHolds(front);
      assert front + [last] == rows;
      if LoadRows(front).Ok? {
        AddedRow(LoadRows(front).value, front, last);
      } else {
        PrefixIsRowList(front, last);
      }
    }
  }

  // Row i names a field: by a text that is not empty, and without an insert.
  ghost predicate NamesField(row: Value) {
    row.Dict? && "id" in row.fields && row.fields["id"].Text? && |row.fields["id"].text| > 0 && "insert" !in row.fields
  }

  // Which files load: none, or a list in which each row names a field of its own or is one insert of mappings.
  lemma FileLoads(v: Value)
    requires IsClean(v)
    ensures Load(v).Ok? <==>
            v.Null? ||
            (v.Items? &&
              (forall i | 0 <= i < |v.items| ::
                NamesField(v.items[i]) ||
                (v.items[i].Dict? && v.items[i].fields.Keys == {"insert"} && v.items[i].fields["insert"].Items? &&
                  forall item | item in v.items[i].fields["insert"].items :: item.Dict?)) &&
              (forall i, j | 0 <= i < j < |v.items| && NamesField(v.items[i]) && NamesField(v.items[j]) ::
                v.items[i].fields["id"].text != v.items[j].fields["id"].text))
  {
    if v.Items? {
      LoadedHolds(v.items);
      var rows := v.items;
      forall i | 0 <= i < |rows|
        ensures IsIdRow(rows[i]) <==> NamesField(rows[i])
        ensures IsInsertRow(rows[i]) <==>
                (rows[i].Dict? && rows[i].fields.Keys == {"insert"} && rows[i].fields["insert"].Items? &&
                  forall item | item in rows[i].fields["insert"].items :: item.Dict?)
      {
        if IsInsertRow(rows[i]) {
          var items := rows[i].fields["insert"].items;
          assert forall k | 0 <= k < |items| :: items[k].Dict?;
        }
      }
      UniqueNames(rows);
      hide IsIdRow, IsInsertRow, NamesField, HaveUniqueIds, LoadRows, IsClean;
    }
  }

  lemma UniqueNames(rows: seq<Value>)
    ensures HaveUniqueIds(EntriesOf(rows)) <==>
            forall i, j | 0 <= i < j < |rows| && NamesField(rows[i]) && NamesField(rows[j]) ::
              rows[i].fields["id"].text != rows[j].fields["id"].text
  {
    forall i | 0 <= i < |rows|
      ensures NamesField(rows[i]) <==> EntriesOf(rows)[i].Id?
      ensures NamesField(rows[i]) ==> EntriesOf(rows)[i] == Id(rows[i].fields["id"].text)
    {
    }
    hide EntryOf, NamesField;
    var entries := EntriesOf(rows);
    assert forall i, j | 0 <= i < j < |entries| && entries[i].Id? && entries[j] == entries[i] :: entries[j].Id?;
  }

  lemma EmptyHolds()
    ensures IsRowList([]) && Holds(EMPTY, []) && IsOrdered(EMPTY)
  {
  }

  lemma PrefixIsRowList(front: seq<Value>, last: Value)
    ensures IsRowList(front + [last]) ==> IsRowList(front)
  {
    var rows := front + [last];
    assert forall i | 0 <= i < |front| :: front[i] == rows[i] && EntriesOf(front)[i] == EntriesOf(rows)[i];
  }

  lemma AddedRow(d: Document, front: seq<Value>, last: Value)
    requires IsRowList(front) && Holds(d, front) && IsOrdered(d)
    ensures AddRow(d, last).Ok? <==> IsRowList(front + [last])
    ensures AddRow(d, last).Ok? ==> Holds(AddRow(d, last).value, front + [last]) && IsOrdered(AddRow(d, last).value)
  {
    var rows := front + [last];
    assert EntriesOf(rows) == EntriesOf(front) + [EntryOf(last)];
    if AddRow(d, last).Ok? {
      if IsIdRow(last) {
        AddedIdRow(d, front, last);
      } else {
        forall i | 0 <= i < |rows| && IsIdRow(rows[i]) ensures i < |front| && rows[i] == front[i] {
        }
      }
    } else {
      RefusedRow(d, front, last);
    }
  }

  lemma RefusedRow(d: Document, front: seq<Value>, last: Value)
    requires Holds(d, front) && AddRow(d, last).Conflict?
    ensures !IsRowList(front + [last])
  {
    var rows := front + [last];
    var entries := EntriesOf(rows);
    if IsIdRow(last) {
      var id := last.fields["id"].text;
      assert Id(id) in d.rows;
      var i :| 0 <= i < |front| && d.rows[i] == Id(id);
      assert entries[i] == entries[|front|] == Id(id);
    } else {
      assert !IsIdRow(rows[|front|]) && !IsInsertRow(rows[|front|]);
    }
  }

  lemma AddedIdRow(d: Document, front: seq<Value>, last: Value)
    requires IsRowList(front) && Holds(d, front) && IsOrdered(d)
    requires IsIdRow(last) && AddRow(d, last).Ok?
    ensures IsRowList(front + [last]) && Holds(AddRow(d, last).value, front + [last]) &&
      IsOrdered(AddRow(d, last).value)
  {
    var rows, next, id := front + [last], AddRow(d, last).value, last.fields["id"].text;
    assert EntriesOf(rows) == EntriesOf(front) + [EntryOf(last)];
    assert Id(id) !in d.rows;
    forall i | 0 <= i < |front| && IsIdRow(front[i]) ensures front[i].fields["id"].text != id {
      assert EntriesOf(front)[i] in d.rows;
    }
    forall i, j | 0 <= i < j < |next.order| ensures next.order[i] != next.order[j] {
      assert next.order[i] in d.order;
    }
  }

  // ---- Editing ----

  datatype Edit = Put(id: string, row: Value) | Remove(id: string)

  function Without(order: seq<string>, id: string): (r: seq<string>)
    ensures forall x :: x in r <==> x in order && x != id
  {
    if order == [] then []
    else
      var last := order[|order| - 1];
      Without(order[..|order| - 1], id) + if last != id then [last] else []
  }

  function Edited(d: Document, e: Edit): Document {
    match e
    case Put(id, row) => d.(fields := d.fields[id := row], order := if id in d.fields then d.order else d.order + [id])
    case Remove(id) => d.(fields := d.fields - {id}, order := Without(d.order, id))
  }

  function AfterEdits(d: Document, edits: seq<Edit>): Document {
    if edits == [] then d else Edited(AfterEdits(d, edits[..|edits| - 1]), edits[|edits| - 1])
  }

  lemma {:induction false} WithoutIsUnique(order: seq<string>, id: string)
    requires forall i, j | 0 <= i < j < |order| :: order[i] != order[j]
    ensures var r := Without(order, id); forall i, j | 0 <= i < j < |r| :: r[i] != r[j]
    decreases |order|
  {
    if order != [] {
      var front, last := order[..|order| - 1], order[|order| - 1];
      WithoutIsUnique(front, id);
      assert last !in front;
      assert last !in Without(front, id);
    }
  }

  // Documents that come from loading and editing, or from no file at all.
  ghost predicate IsDocument(d: Document) {
    && IsOrdered(d) && HaveUniqueIds(d.rows)
    && forall i | 0 <= i < |d.rows| && d.rows[i].Raw? :: IsInsertRow(d.rows[i].row) && IsClean(d.rows[i].row)
  }

  lemma LoadedIsDocument(v: Value)
    requires Load(v).Ok?
    ensures IsDocument(Load(v).value)
  {
    hide IsClean, IsInsertRow;
    if v.Items? {
      LoadedHolds(v.items);
      var d := Load(v).value;
      forall i | 0 <= i < |d.rows| && d.rows[i].Raw? ensures IsInsertRow(d.rows[i].row) && IsClean(d.rows[i].row) {
        ItemIsClean(v, i);
      }
    }
  }

  lemma ItemIsClean(v: Value, i: nat)
    requires IsClean(v) && v.Items? && i < |v.items|
    ensures IsClean(v.items[i])
  {
  }

  lemma EditedIsDocument(d: Document, e: Edit)
    requires IsDocument(d)
    ensures IsDocument(Edited(d, e)) && Edited(d, e).rows == d.rows
  {
    hide IsInsertRow, IsClean;
    match e
    case Put(id, row) =>
      if id !in d.fields {
        assert id !in d.order;
      }
    case Remove(id) =>
      WithoutIsUnique(d.order, id);
      var next := Edited(d, e);
      assert next.order == Without(d.order, id) && next.fields.Keys == d.fields.Keys - {id};
  }

  // However a document is edited, its places stay those of the file.
  lemma {:induction false} EditsKeepDocument(d: Document, edits: seq<Edit>)
    requires IsDocument(d)
    ensures IsDocument(AfterEdits(d, edits)) && AfterEdits(d, edits).rows == d.rows
    decreases |edits|
  {
    hide IsDocument;
    if edits != [] {
      EditsKeepDocument(d, edits[..|edits| - 1]);
      EditedIsDocument(AfterEdits(d, edits[..|edits| - 1]), edits[|edits| - 1]);
    }
  }

  // ---- Dumping undoes loading ----

  lemma {:induction false} AllSurvive(entries: seq<Entry>, ids: set<string>)
    requires forall e | e in entries :: Survives(e, ids)
    ensures Survivors(entries, ids) == entries
    decreases |entries|
  {
    if entries != [] {
      AllSurvive(entries[..|entries| - 1], ids);
      assert entries[..|entries| - 1] + [entries[|entries| - 1]] == entries;
    }
  }

  lemma NothingAdded(order: seq<string>, rows: seq<Entry>)
    requires forall id | id in order :: Id(id) in rows
    ensures Additions(order, rows) == []
  {
    if Additions(order, rows) != [] {
      assert Additions(order, rows)[0] in Additions(order, rows);
    }
  }

  lemma RowComesBack(row: Value, fields: map<string, Value>)
    requires IsIdRow(row)
    requires row.fields["id"].text in fields && fields[row.fields["id"].text] == Dict(row.fields - {"id"})
    ensures RowOf(fields, EntryOf(row)) == row
  {
    assert (row.fields - {"id"})["id" := row.fields["id"]] == row.fields;
  }

  lemma LoadedIsNamed(d: Document, rows: seq<Value>)
    requires Holds(d, rows)
    ensures AreNamed(d.fields)
  {
    forall id | id in d.fields.Keys ensures IsNamed(id, d.fields[id]) {
      assert Id(id) in d.rows;
      var i :| 0 <= i < |rows| && d.rows[i] == Id(id);
      assert EntryOf(rows[i]) == Id(id);
    }
  }

  // A file that loads is dumped exactly as it was, row for row.
  lemma LoadThenDump(v: Value)
    requires Load(v).Ok?
    ensures Dump(Load(v).value) == Ok(if v.Null? then Items([]) else v)
  {
    hide IsClean, IsIdRow, IsInsertRow, IsNamed;
    var d := Load(v).value;
    if v.Items? {
      LoadedHolds(v.items);
      LoadedIsNamed(d, v.items);
      AllSurvive(d.rows, d.fields.Keys);
      NothingAdded(d.order, d.rows);
      forall i | 0 <= i < |v.items| ensures RowOf(d.fields, Listing(d)[i]) == v.items[i] {
        if IsIdRow(v.items[i]) {
          RowComesBack(v.items[i], d.fields);
        }
      }
      assert RowsOf(d.fields, Listing(d)) == v.items;
    } else {
      assert RowsOf(d.fields, Listing(d)) == [];
      assert Load(Items([])).Ok? by {
        EmptyIsClean();
      }
    }
  }

  lemma EmptyIsClean()
    ensures IsClean(Items([]))
  {
  }

  // ---- When dumping succeeds, and what loads again ----

  // A row the loader takes under this id.
  predicate IsRow(id: string, row: Value) {
    IsNamed(id, row) && "insert" !in row.fields && IsClean(row)
  }

  predicate AreRows(fields: map<string, Value>) {
    forall id | id in fields.Keys :: IsRow(id, fields[id])
  }

  lemma NamedRow(fields: map<string, Value>, id: string)
    requires id in fields && IsNamed(id, fields[id])
    ensures var row := RowOf(fields, Id(id));
            (IsIdRow(row) <==> "insert" !in fields[id].fields) && (IsClean(row) <==> IsClean(fields[id])) &&
            (IsIdRow(row) ==> EntryOf(row) == Id(id) && row.fields - {"id"} == fields[id].fields - {"id"}) &&
              !IsInsertRow(row)
  {
    var before := fields[id].fields;
    var row := RowOf(fields, Id(id));
    assert row.fields == before["id" := Text(id)];
    assert "id" in row.fields.Keys;
    if IsClean(row) {
      forall k | k in before.Keys ensures k != "" && IsClean(before[k]) {
        assert k in row.fields.Keys && row.fields[k] == before[k];
      }
    }
    if IsClean(fields[id]) {
      forall k | k in row.fields.Keys ensures k != "" && IsClean(row.fields[k]) {
        assert k != "id" ==> k in before.Keys;
      }
    }
  }

  lemma InsertRowIsRaw(row: Value)
    requires IsInsertRow(row)
    ensures EntryOf(row) == Raw(row)
  {
    assert "id" !in row.fields.Keys;
  }

  lemma {:induction false} SurvivorsAreUnique(entries: seq<Entry>, ids: set<string>)
    requires HaveUniqueIds(entries)
    ensures HaveUniqueIds(Survivors(entries, ids))
    decreases |entries|
  {
    if entries != [] {
      var front, last := entries[..|entries| - 1], entries[|entries| - 1];
      SurvivorsAreUnique(front, ids);
      var kept := Survivors(front, ids);
      forall i | 0 <= i < |kept| && kept[i].Id? ensures kept[i] != last {
        assert kept[i] in front;
      }
    }
  }

  lemma {:induction false} AdditionsAreUnique(order: seq<string>, rows: seq<Entry>)
    requires forall i, j | 0 <= i < j < |order| :: order[i] != order[j]
    ensures HaveUniqueIds(Additions(order, rows))
    decreases |order|
  {
    if order != [] {
      var front, last := order[..|order| - 1], order[|order| - 1];
      AdditionsAreUnique(front, rows);
      assert last !in front;
      var added := Additions(front, rows);
      forall i | 0 <= i < |added| ensures added[i] != Id(last) {
        assert added[i] in added;
      }
    }
  }

  // The rows to write: every surviving place, then every id without one, none twice.
  lemma ListingIsUnique(d: Document)
    requires IsDocument(d)
    ensures HaveUniqueIds(Listing(d)) && (forall id :: Id(id) in Listing(d) <==> id in d.fields.Keys)
    ensures forall i | 0 <= i < |Listing(d)| && Listing(d)[i].Raw? ::
      IsInsertRow(Listing(d)[i].row) && IsClean(Listing(d)[i].row)
  {
    hide IsInsertRow, IsClean;
    SurvivorsAreUnique(d.rows, d.fields.Keys);
    AdditionsAreUnique(d.order, d.rows);
    var kept, added := Survivors(d.rows, d.fields.Keys), Additions(d.order, d.rows);
    forall i, j | 0 <= i < |kept| && 0 <= j < |added| ensures kept[i] != added[j] {
      assert kept[i] in d.rows && added[j] in added;
    }
    forall i | 0 <= i < |Listing(d)| && Listing(d)[i].Raw?
      ensures IsInsertRow(Listing(d)[i].row) && IsClean(Listing(d)[i].row) {
      var e := Listing(d)[i];
      assert e in kept || e in added;
      assert e in d.rows;
      var k :| 0 <= k < |d.rows| && d.rows[k] == e;
    }
  }

  lemma ListedRow(d: Document, i: nat)
    requires IsDocument(d) && AreNamed(d.fields) && i < |Listing(d)|
    ensures var e, row := Listing(d)[i], RowOf(d.fields, Listing(d)[i]);
            (e.Id? ==> e.id in d.fields) &&
            (IsIdRow(row) || IsInsertRow(row) <==> e.Raw? || "insert" !in d.fields[e.id].fields) &&
            (IsClean(row) <==> e.Raw? || IsClean(d.fields[e.id])) &&
            (IsIdRow(row) || IsInsertRow(row) ==> EntryOf(row) == e)
  {
    hide IsInsertRow, IsClean, IsIdRow, EntryOf, RowOf, IsNamed, IsDocument;
    ListingIsUnique(d);
    var e := Listing(d)[i];
    assert e in Listing(d);
    if e.Id? {
      NamedRow(d.fields, e.id);
    } else {
      RawRow(d.fields, e);
    }
  }

  lemma RawRow(fields: map<string, Value>, e: Entry)
    requires e.Raw? && IsInsertRow(e.row)
    ensures RowOf(fields, e) == e.row && EntryOf(e.row) == e
  {
    InsertRowIsRaw(e.row);
  }

  lemma ListingLoads(d: Document)
    requires IsDocument(d) && AreNamed(d.fields)
    ensures var rows := RowsOf(d.fields, Listing(d)); Load(Items(rows)).Ok? <==> AreRows(d.fields)
    ensures var rows := RowsOf(d.fields, Listing(d)); AreRows(d.fields) ==> EntriesOf(rows) == Listing(d)
  {
    hide IsInsertRow, IsIdRow, RowOf, IsNamed, IsDocument, Listing, EntryOf, LoadRows;
    var rows := RowsOf(d.fields, Listing(d));
    LoadedHolds(rows);
    ListingIsUnique(d);
    if AreRows(d.fields) {
      forall i | 0 <= i < |rows| ensures (IsIdRow(rows[i]) || IsInsertRow(rows[i])) &&
        EntryOf(rows[i]) == Listing(d)[i] && IsClean(rows[i]) {
        ListedRow(d, i);
      }
      assert EntriesOf(rows) == Listing(d);
    }
    if Load(Items(rows)).Ok? {
      forall id | id in d.fields.Keys ensures IsRow(id, d.fields[id]) {
        assert Id(id) in Listing(d);
        var i :| 0 <= i < |rows| && Listing(d)[i] == Id(id);
        ListedRow(d, i);
        assert IsNamed(id, d.fields[id]);
        assert IsClean(rows[i]);
      }
    }
  }

  // A document is written if and only if every value is a row the loader takes under its id.
  lemma DumpSucceeds(d: Document)
    requires IsDocument(d)
    ensures Dump(d).Ok? <==> AreRows(d.fields)
  {
    hide IsRow, Load, IsDocument;
    if AreNamed(d.fields) {
      ListingLoads(d);
    } else if AreRows(d.fields) {
      forall id | id in d.fields.Keys ensures IsNamed(id, d.fields[id]) {
        RowIsNamed(id, d.fields[id]);
      }
    }
  }

  lemma RowIsNamed(id: string, row: Value)
    requires IsRow(id, row)
    ensures IsNamed(id, row)
  {
  }

  function Stripped(fields: map<string, Value>): map<string, Value> {
    map id | id in fields :: if fields[id].Dict? then Dict(fields[id].fields - {"id"}) else fields[id]
  }

  // Loading a dumped document gives back the same ids with the same rows, less an id field inside a
  // row, and the places as written.
  lemma DumpThenLoad(d: Document)
    requires IsDocument(d) && Dump(d).Ok?
    ensures Load(Dump(d).value).Ok?
    ensures var again := Load(Dump(d).value).value; again.fields == Stripped(d.fields) && again.rows == Listing(d)
    ensures Load(Dump(d).value).value.fields == d.fields <==>
      forall id | id in d.fields.Keys :: "id" !in d.fields[id].fields
  {
    hide IsInsertRow, IsIdRow, RowOf, IsNamed, IsDocument, Listing, EntryOf, LoadRows, IsClean;
    var rows := RowsOf(d.fields, Listing(d));
    LoadedHolds(rows);
    ListingIsUnique(d);
    ListingLoads(d);
    var again := Load(Dump(d).value).value;
    forall id | id in d.fields.Keys ensures id in again.fields && d.fields[id].Dict? &&
      again.fields[id] == Dict(d.fields[id].fields - {"id"}) {
      assert Id(id) in Listing(d);
      var i :| 0 <= i < |rows| && Listing(d)[i] == Id(id);
      LoadedUnder(d.fields, again.fields, rows[i], id);
    }
    assert again.fields == Stripped(d.fields);
    forall id | id in d.fields.Keys ensures again.fields[id] == d.fields[id] <==> "id" !in d.fields[id].fields {
      if "id" !in d.fields[id].fields {
        assert d.fields[id].fields - {"id"} == d.fields[id].fields;
      }
    }
  }

  lemma LoadedUnder(fields: map<string, Value>, again: map<string, Value>, row: Value, id: string)
    requires id in fields && IsRow(id, fields[id]) && row == RowOf(fields, Id(id))
    requires IsIdRow(row) ==>
      row.fields["id"].text in again && again[row.fields["id"].text] == Dict(row.fields - {"id"})
    ensures id in again && fields[id].Dict? && again[id] == Dict(fields[id].fields - {"id"})
  {
    NamedRow(fields, id);
  }

  // ---- What editing does to the file ----

  function InsertsOf(entries: seq<Entry>): seq<Value> {
    if entries == [] then []
    else
      var last := entries[|entries| - 1];
      InsertsOf(entries[..|entries| - 1]) + if last.Raw? then [last.row] else []
  }

  lemma InsertsOfOneMore(entries: seq<Entry>, e: Entry)
    ensures InsertsOf(entries + [e]) == InsertsOf(entries) + if e.Raw? then [e.row] else []
  {
    assert (entries + [e])[..|entries|] == entries;
  }

  lemma {:induction false} SurvivorsKeepInserts(entries: seq<Entry>, ids: set<string>)
    ensures InsertsOf(Survivors(entries, ids)) == InsertsOf(entries)
    decreases |entries|
  {
    if entries != [] {
      var front, last := entries[..|entries| - 1], entries[|entries| - 1];
      SurvivorsKeepInserts(front, ids);
      InsertsOfOneMore(Survivors(front, ids), last);
      assert Survivors(front, ids) + [] == Survivors(front, ids);
    }
  }

  lemma {:induction false} IdsInsertNothing(entries: seq<Entry>, added: seq<Entry>)
    requires forall e | e in added :: e.Id?
    ensures InsertsOf(entries + added) == InsertsOf(entries)
    decreases |added|
  {
    if added == [] {
      assert entries + added == entries;
    } else {
      var front, last := added[..|added| - 1], added[|added| - 1];
      IdsInsertNothing(entries, front);
      assert last in added;
      InsertsOfOneMore(entries + front, last);
      assert entries + added == entries + front + [last];
    }
  }

  // Two surviving places keep their order.
  lemma {:induction false} SurvivorsKeepOrder(entries: seq<Entry>, ids: set<string>, i: nat, j: nat)
    requires i < j < |entries| && Survives(entries[i], ids) && Survives(entries[j], ids)
    ensures exists a, b ::
      0 <= a < b < |Survivors(entries, ids)| && Survivors(entries, ids)[a] == entries[i] &&
      Survivors(entries, ids)[b] == entries[j]
    decreases |entries|
  {
    var front := entries[..|entries| - 1];
    var kept := Survivors(front, ids);
    if j < |front| {
      SurvivorsKeepOrder(front, ids, i, j);
      var a, b :| 0 <= a < b < |kept| && kept[a] == front[i] && kept[b] == front[j];
      assert Survivors(entries, ids)[a] == entries[i] && Survivors(entries, ids)[b] == entries[j];
    } else {
      assert front[i] in kept;
      var a :| 0 <= a < |kept| && kept[a] == front[i];
      assert Survivors(entries, ids)[a] == entries[i] && Survivors(entries, ids)[|kept|] == entries[j];
    }
  }

  // A loaded file, edited in any way that leaves it writable: the new file keeps every insert row,
  // the places of surviving rows in their order, drops exactly the removed ids and ends with the new ones.
  lemma EditsKeepPlaces(v: Value, edits: seq<Edit>, id: string)
    requires Load(v).Ok? && v.Items? && Dump(AfterEdits(Load(v).value, edits)).Ok?
    ensures var d, written := AfterEdits(Load(v).value, edits), Dump(AfterEdits(Load(v).value, edits)).value;
            var before := EntriesOf(v.items);
            && written.Items?
            && EntriesOf(written.items) == Survivors(before, d.fields.Keys) + Additions(d.order, before)
            && InsertsOf(EntriesOf(written.items)) == InsertsOf(before)
            && (Id(id) in EntriesOf(written.items) <==> id in d.fields)
  {
    hide IsDocument, Load, LoadRows, IsClean, IsInsertRow, IsNamed, AreNamed, EntryOf, RowOf;
    var d := AfterEdits(Load(v).value, edits);
    LoadedPlaces(v);
    LoadedIsDocument(v);
    EditsKeepDocument(Load(v).value, edits);
    DumpSucceeds(d);
    ListingLoads(d);
    ListingIsUnique(d);
    SurvivorsKeepInserts(d.rows, d.fields.Keys);
    IdsInsertNothing(Survivors(d.rows, d.fields.Keys), Additions(d.order, d.rows));
  }

  lemma LoadedPlaces(v: Value)
    requires Load(v).Ok? && v.Items?
    ensures Load(v).value.rows == EntriesOf(v.items)
  {
    LoadedHolds(v.items);
  }

  // What was written once is written the same again.
  lemma DumpIsStable(d: Document)
    requires IsDocument(d) && Dump(d).Ok?
    ensures Dump(Load(Dump(d).value).value) == Dump(d)
  {
    hide Load, LoadRows, IsDocument, Listing, RowOf;
    DumpThenLoad(d);
    LoadThenDump(Dump(d).value);
  }

  // ---- In place ----

  class CordisDocument {
    var fields: map<string, Value>
    var order: seq<string>
    var rows: seq<Entry>

    ghost function View(): Document
      reads this
    {
      Document(fields, order, rows)
    }

    constructor ()
      ensures View() == EMPTY
    {
      fields, order, rows := map[], [], [];
    }

    // document[id] = row
    method Put(id: string, row: Value)
      modifies this
      ensures View() == Edited(old(View()), Edit.Put(id, row))
    {
      if id !in fields {
        order := order + [id];
      }
      fields := fields[id := row];
    }

    method Remove(id: string)
      modifies this
      ensures View() == Edited(old(View()), Edit.Remove(id))
    {
      fields, order := fields - {id}, Without(order, id);
    }
  }

  lemma {:induction false} RefusalStays(rows: seq<Value>, i: nat)
    requires i <= |rows| && LoadRows(rows[..i]).Conflict?
    ensures LoadRows(rows).Conflict?
    decreases |rows| - i
  {
    if i < |rows| {
      assert rows[..i + 1][..i] == rows[..i];
      RefusalStays(rows, i + 1);
    } else {
      assert rows[..i] == rows;
    }
  }

  method LoadCordis(v: Value) returns (r: Result<CordisDocument>)
    ensures r.Ok? <==> Load(v).Ok?
    ensures r.Ok? ==> fresh(r.value) && r.value.View() == Load(v).value
  {
    hide IsClean, IsInsertRow;
    if !IsClean(v) {
      return Conflict;
    }
    var items := [];
    if v.Items? {
      items := v.items;
    } else if !v.Null? {
      return Conflict;
    }
    var d := new CordisDocument();
    for i := 0 to |items|
      invariant fresh(d) && LoadRows(items[..i]) == Ok(d.View())
    {
      var row := items[i];
      ghost var done := items[..i + 1];
      assert done[..i] == items[..i];
      if !row.Dict? || ("id" in row.fields && (!IsIdRow(row) || row.fields["id"].text in d.fields))
         || ("id" !in row.fields && !IsInsertRow(row)) {
        RefusalStays(items, i + 1);
        return Conflict;
      }
      if "id" in row.fields {
        var id := row.fields["id"].text;
        d.fields, d.order, d.rows := d.fields[id := Dict(row.fields - {"id"})], d.order + [id], d.rows + [Id(id)];
      } else {
        d.rows := d.rows + [Raw(row)];
      }
    }
    assert items[..|items|] == items;
    return Ok(d);
  }

  // The rows with a place in the file, and which ids they cover.
  method EmitPlaces(d: CordisDocument) returns (rows: Result<seq<Value>>, emitted: set<string>)
    ensures rows.Ok? <==> forall id | Id(id) in d.rows && id in d.fields :: IsNamed(id, d.fields[id])
    ensures rows.Ok? ==> rows.value == RowsOf(d.fields, Survivors(d.rows, d.fields.Keys))
    ensures rows.Ok? ==> forall id :: id in emitted <==> id in d.fields && Id(id) in d.rows
  {
    hide IsNamed, RowOf;
    var out: seq<Value> := [];
    emitted := {};
    for i := 0 to |d.rows|
      invariant out == RowsOf(d.fields, Survivors(d.rows[..i], d.fields.Keys))
      invariant forall id :: id in emitted <==> id in d.fields && Id(id) in d.rows[..i]
      invariant forall id | id in emitted :: IsNamed(id, d.fields[id])
    {
      assert d.rows[..i + 1] == d.rows[..i] + [d.rows[i]];
      var e := d.rows[i];
      OneMoreSurvivor(d.fields, d.rows[..i], e);
      if e.Id? {
        if e.id in d.fields {
          if !IsNamed(e.id, d.fields[e.id]) {
            return Conflict, emitted;
          }
          NamedRowOf(d.fields, e.id);
          out, emitted := out + [Dict(d.fields[e.id].fields["id" := Text(e.id)])], emitted + {e.id};
        }
      } else {
        RawRowOf(d.fields, e);
        out := out + [e.row];
      }
    }
    assert d.rows[..|d.rows|] == d.rows;
    return Ok(out), emitted;
  }

  // The other ids, in the order of the dictionary.
  method EmitAdditions(d: CordisDocument, ghost kept: seq<Entry>, rows: seq<Value>, emitted: set<string>)
      returns (r: Result<seq<Value>>)
    requires IsOrdered(d.View()) && rows == RowsOf(d.fields, kept)
    requires forall id :: id in emitted <==> id in d.fields && Id(id) in d.rows
    ensures r.Ok? <==> forall id | id in d.fields && Id(id) !in d.rows :: IsNamed(id, d.fields[id])
    ensures r.Ok? ==> r.value == RowsOf(d.fields, kept + Additions(d.order, d.rows))
  {
    hide IsNamed, RowOf, RowsOf, Additions;
    var out := rows;
    NoAddition(d.fields, kept, d.rows);
    assert d.order[..0] == [];
    for j := 0 to |d.order|
      invariant out == RowsOf(d.fields, kept + Additions(d.order[..j], d.rows))
      invariant forall k | 0 <= k < j :: Id(d.order[k]) !in d.rows ==> IsNamed(d.order[k], d.fields[d.order[k]])
    {
      assert d.order[..j + 1] == d.order[..j] + [d.order[j]];
      var id := d.order[j];
      assert id in d.order;
      OneMoreAddition(d.fields, kept, d.order[..j], d.rows, id);
      if id !in emitted {
        if !IsNamed(id, d.fields[id]) {
          return Conflict;
        }
        NamedRowOf(d.fields, id);
        out := out + [Dict(d.fields[id].fields["id" := Text(id)])];
      }
    }
    assert d.order[..|d.order|] == d.order;
    assert forall id | id in d.fields :: id in d.order;
    return Ok(out);
  }

  method DumpCordis(d: CordisDocument) returns (r: Result<Value>)
    requires IsOrdered(d.View())
    ensures r == Dump(d.View())
  {
    hide IsNamed, IsOrdered, RowOf, Load, Survivors, Additions;
    var places, emitted := EmitPlaces(d);
    if places.Conflict? {
      return Conflict;
    }
    var rows := EmitAdditions(d, Survivors(d.rows, d.fields.Keys), places.value, emitted);
    if rows.Conflict? {
      return Conflict;
    }
    assert AreNamed(d.fields);
    var again := LoadCordis(Items(rows.value));
    return if again.Ok? then Ok(Items(rows.value)) else Conflict;
  }

  lemma OneMoreSurvivor(fields: map<string, Value>, entries: seq<Entry>, e: Entry)
    ensures RowsOf(fields, Survivors(entries + [e], fields.Keys)) ==
      RowsOf(fields, Survivors(entries, fields.Keys)) + if Survives(e, fields.Keys) then [RowOf(fields, e)] else []
  {
    assert (entries + [e])[..|entries|] == entries;
  }

  lemma NoAddition(fields: map<string, Value>, kept: seq<Entry>, rows: seq<Entry>)
    ensures RowsOf(fields, kept + Additions([], rows)) == RowsOf(fields, kept)
  {
    assert kept + [] == kept;
  }

  lemma OneMoreAddition(fields: map<string, Value>, kept: seq<Entry>, order: seq<string>, rows: seq<Entry>, id: string)
    ensures RowsOf(fields, kept + Additions(order + [id], rows)) ==
      RowsOf(fields, kept + Additions(order, rows)) + if Id(id) !in rows then [RowOf(fields, Id(id))] else []
  {
    assert (order + [id])[..|order|] == order;
  }

  lemma NamedRowOf(fields: map<string, Value>, id: string)
    requires id in fields && IsNamed(id, fields[id])
    ensures fields[id].Dict? && RowOf(fields, Id(id)) == Dict(fields[id].fields["id" := Text(id)])
  {
  }

  lemma RawRowOf(fields: map<string, Value>, e: Entry)
    requires e.Raw?
    ensures RowOf(fields, e) == e.row
  {
  }
}
