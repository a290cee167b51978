/**
 * The database as the migrations see it: tables with their columns, rows,
 * indexes, full-text (FTS5 external-content) tables and the triggers that
 * keep them in step.  Only what the
 * migration guards inspect is modelled: column names, NOT NULL, UNIQUE, a
 * CHECK on a set of text values, and a column default.  Each statement the
 * migrations issue is a function from a database to a database or a
 * failure; a multi-statement `db.run` stops at the first failing statement
 * and keeps what ran before it; a transaction restores the prior state.
 */
module Schema {
  import opened Wrappers

  datatype Cell = Null | Text(s: string) | Int(n: int)

  /** A row: column name to value; a column the row does not mention holds NULL. */
  type Record = map<string, Cell>

  function Get(r: Record, c: string): Cell
  {
    if c in r then r[c] else Null
  }

  datatype Column = Column(name: string, notNull: bool, unique: bool, allowed: Option<set<string>>, dflt: Cell)

  /** A nullable column without constraints. */
  function Plain(name: string): Column
  {
    Column(name, false, false, None, Null)
  }

  /** A NOT NULL column. */
  function Required(name: string): Column
  {
    Column(name, true, false, None, Null)
  }

  /** A UNIQUE column. */
  function UniqueCol(name: string, notNull: bool): Column
  {
    Column(name, notNull, true, None, Null)
  }

  /** A column with `CHECK(name IN (values))`. */
  function Checked(name: string, values: set<string>, notNull: bool, dflt: Cell): Column
  {
    Column(name, notNull, false, Some(values), dflt)
  }

  function Names(cols: seq<Column>): (r: seq<string>)
    ensures |r| == |cols| && forall i :: 0 <= i < |cols| ==> r[i] == cols[i].name
  {
    seq(|cols|, i requires 0 <= i < |cols| => cols[i].name)
  }

  /** NOT NULL and CHECK(c IN (...)); a NULL passes a CHECK, as in SQLite. */
  predicate Accepts(c: Column, v: Cell)
  {
    (c.notNull ==> !v.Null?)
    && (c.allowed.Some? ==> v.Null? || (v.Text? && v.s in c.allowed.value))
  }

  predicate Fits(cols: seq<Column>, r: Record)
  {
    forall i :: 0 <= i < |cols| ==> Accepts(cols[i], Get(r, cols[i].name))
  }

  datatype Table = Table(columns: seq<Column>, rows: seq<Record>)

  /** A UNIQUE column already holds the row's (non-NULL) value. */
  predicate Clashes(t: Table, r: Record)
  {
    exists i, k :: 0 <= i < |t.columns| && 0 <= k < |t.rows| && t.columns[i].unique
      && Get(r, t.columns[i].name) != Null && Get(t.rows[k], t.columns[i].name) == Get(r, t.columns[i].name)
  }

  /** Every indexed column is a column of the table. */
  predicate Covers(cols: seq<Column>, columns: seq<string>)
  {
    forall j :: 0 <= j < |columns| ==> columns[j] in Names(cols)
  }

  /**
   * Two rows agree, with no NULL, on every indexed column: what a UNIQUE
   * index refuses (SQLite lets NULLs repeat in a unique index).
   */
  predicate Duplicated(rows: seq<Record>, columns: seq<string>)
  {
    exists i, k :: 0 <= i < k < |rows| && SameKey(rows[i], rows[k], columns)
  }

  predicate SameKey(a: Record, b: Record, columns: seq<string>)
  {
    forall j :: 0 <= j < |columns| ==> Get(a, columns[j]) != Null && Get(a, columns[j]) == Get(b, columns[j])
  }

  datatype Index = Index(table: string, unique: bool)

  datatype Event = OnInsert | OnDelete | OnUpdate

  /** A trigger that mirrors changes of `table` into the FTS table `fts`. */
  datatype Trigger = Trigger(table: string, fts: string, event: Event)

  /** An FTS row: the source row's id and the indexed columns' values. */
  datatype Entry = Entry(rowid: Cell, values: seq<Cell>)

  datatype Fts = Fts(source: string, columns: seq<string>, entries: seq<Entry>)

  datatype Db = Db(
    tables: map<string, Table>, fts: map<string, Fts>, indexes: map<string, Index>,
    triggers: map<string, Trigger>)

  /** A table of either kind under this name (`sqlite_master` with type 'table'). */
  predicate Exists(d: Db, name: string)
  {
    name in d.tables || name in d.fts
  }

  predicate HasColumn(d: Db, table: string, column: string)
  {
    table in d.tables && column in Names(d.tables[table].columns)
  }

  /** `PRAGMA index_list(t)` shows a unique index: a UNIQUE column's automatic one or a declared one. */
  predicate HasUniqueIndex(d: Db, table: string)
  {
    (table in d.tables && exists i :: 0 <= i < |d.tables[table].columns| && d.tables[table].columns[i].unique)
    || exists n :: n in d.indexes && d.indexes[n] == Index(table, true)
  }

  function Mirror(r: Record, cols: seq<string>): (e: Entry)
    ensures |e.values| == |cols|
  {
    Entry(Get(r, "id"), seq(|cols|, i requires 0 <= i < |cols| => Get(r, cols[i])))
  }

  function MirrorAll(rows: seq<Record>, cols: seq<string>): (r: seq<Entry>)
    ensures |r| == |rows| && forall k :: 0 <= k < |rows| ==> r[k] == Mirror(rows[k], cols)
  {
    seq(|rows|, k requires 0 <= k < |rows| => Mirror(rows[k], cols))
  }

  /** Whether a trigger mirrors `event` on `table` into `fts`. */
  predicate Fires(d: Db, table: string, fts: string, event: Event)
  {
    exists n :: n in d.triggers && d.triggers[n] == Trigger(table, fts, event)
  }

  /** The first occurrence of `e` removed (the FTS 'delete' command). */
  function RemoveOne(s: seq<Entry>, e: Entry): (r: seq<Entry>)
    ensures e in s ==> multiset(r) == multiset(s) - multiset{e}
    ensures e !in s ==> r == s
  {
    if s == [] then []
    else if s[0] == e then
      assert s == [s[0]] + s[1..];
      s[1..]
    else
      assert s == [s[0]] + s[1..];
      [s[0]] + RemoveOne(s[1..], e)
  }

  // ---------------------------------------------------------------- statements

  datatype Stmt =
    | CreateTable(name: string, columns: seq<Column>, ifNotExists: bool)
    /** `CREATE [UNIQUE] INDEX name ON table(columns)`; a sort direction is not modelled. */
    | CreateIndex(name: string, table: string, indexed: seq<string>, unique: bool, ifNotExists: bool)
    | AddColumn(table: string, column: Column)
    | DropTable(name: string, ifExists: bool)
    | RenameTable(from: string, to: string)
    /** `INSERT INTO to SELECT columns FROM from`, the same names on both sides. */
    | CopyRows(from: string, to: string, names: seq<string>)
    /** `CREATE VIRTUAL TABLE name USING fts5(names, content=source)`. */
    | CreateFts(name: string, source: string, names: seq<string>, ifNotExists: bool)
    /** `INSERT INTO name SELECT id, columns FROM source`. */
    | PopulateFts(name: string)
    | CreateTrigger(name: string, trigger: Trigger, ifNotExists: bool)
    /** `DROP TRIGGER IF EXISTS`. */
    | DropTrigger(name: string)
    | Insert(table: string, row: Record)

  /**
   * The row as stored: each column the insert leaves out takes its DEFAULT,
   * NULL when it has none (of two columns with one name, the first decides).
   */
  function WithDefaults(cols: seq<Column>, r: Record): (full: Record)
    ensures forall c :: c in r ==> c in full && full[c] == r[c]
    ensures forall c :: c in full ==> c in r || c in Names(cols)
    ensures forall i :: 0 <= i < |cols| && cols[i].name !in r && FirstNamed(cols, i) ==>
      Get(full, cols[i].name) == cols[i].dflt
    decreases |cols|
  {
    if cols == [] then r
    else
      var rest := WithDefaults(cols[1..], r);
      assert forall i :: 1 <= i < |cols| && FirstNamed(cols, i) ==> FirstNamed(cols[1..], i - 1);
      if cols[0].name in r then rest else rest[cols[0].name := cols[0].dflt]
  }

  /** No column before column `i` has its name. */
  predicate FirstNamed(cols: seq<Column>, i: int)
    requires 0 <= i < |cols|
  {
    forall j :: 0 <= j < i ==> cols[j].name != cols[i].name
  }

  /**
   * A row inserted: the columns it leaves out take their defaults, the
   * constraints are checked on the result, then the insert triggers mirror it.
   */
  function InsertRow(d: Db, table: string, r: Record): (out: Result<Db>)
    ensures out.Ok? <==> (table in d.tables && Fits(d.tables[table].columns, WithDefaults(d.tables[table].columns, r))
      && !Clashes(d.tables[table], WithDefaults(d.tables[table].columns, r)))
    ensures out.Ok? ==> out.value.tables == d.tables[table := Table(d.tables[table].columns,
      d.tables[table].rows + [WithDefaults(d.tables[table].columns, r)])]
  {
    if table !in d.tables then Err("no such table")
    else
      var t := d.tables[table];
      var full := WithDefaults(t.columns, r);
      if !Fits(t.columns, full) then Err("constraint failed")
      else if Clashes(t, full) then Err("UNIQUE constraint failed")
      else
        Ok(d.(tables := d.tables[table := Table(t.columns, t.rows + [full])],
                   fts := map f | f in d.fts :: if Fires(d, table, f, OnInsert)
                          then d.fts[f].(entries := d.fts[f].entries + [Mirror(full, d.fts[f].columns)])
                          else d.fts[f]))
  }

  /** Row `k` deleted; the delete triggers remove its mirror. */
  function DeleteRow(d: Db, table: string, k: nat): Db
    requires table in d.tables && k < |d.tables[table].rows|
  {
    var t := d.tables[table];
    var r := t.rows[k];
    d.(tables := d.tables[table := Table(t.columns, t.rows[..k] + t.rows[k + 1..])],
       fts := map f | f in d.fts :: if Fires(d, table, f, OnDelete)
              then d.fts[f].(entries := RemoveOne(d.fts[f].entries, Mirror(r, d.fts[f].columns)))
              else d.fts[f])
  }

  /** Row `k` replaced by `r`; the update triggers remove the old mirror and add the new one. */
  function UpdateRow(d: Db, table: string, k: nat, r: Record): Db
    requires table in d.tables && k < |d.tables[table].rows|
  {
    var t := d.tables[table];
    var old_ := t.rows[k];
    d.(tables := d.tables[table := Table(t.columns, t.rows[k := r])],
       fts := map f | f in d.fts :: if Fires(d, table, f, OnUpdate)
              then d.fts[f].(entries := RemoveOne(d.fts[f].entries, Mirror(old_, d.fts[f].columns))
                                        + [Mirror(r, d.fts[f].columns)])
              else d.fts[f])
  }

  function Project(r: Record, cols: seq<string>): Record
  {
    map c | c in cols :: Get(r, c)
  }

  function ProjectAll(rows: seq<Record>, cols: seq<string>): (r: seq<Record>)
    ensures |r| == |rows| && forall k :: 0 <= k < |rows| ==> r[k] == Project(rows[k], cols)
  {
    seq(|rows|, k requires 0 <= k < |rows| => Project(rows[k], cols))
  }

  /** The indexes that survive dropping `table`. */
  function IndexesOff(m: map<string, Index>, table: string): (r: map<string, Index>)
    ensures forall n :: n in r <==> n in m && m[n].table != table
    ensures forall n :: n in r ==> r[n] == m[n]
  {
    map n | n in m && m[n].table != table :: m[n]
  }

  /** The triggers that survive dropping `table`. */
  function TriggersOff(m: map<string, Trigger>, table: string): (r: map<string, Trigger>)
    ensures forall n :: n in r <==> n in m && m[n].table != table
    ensures forall n :: n in r ==> r[n] == m[n]
  {
    map n | n in m && m[n].table != table :: m[n]
  }

  /** Indexes after renaming table `from` to `to`: those on `from` follow it. */
  function RepointIndexes(m: map<string, Index>, from: string, to: string): (r: map<string, Index>)
    ensures r.Keys == m.Keys
    ensures forall n :: n in m && m[n].table != from ==> r[n] == m[n]
  {
    map n | n in m :: if m[n].table == from then m[n].(table := to) else m[n]
  }

  /** Triggers after renaming table `from` to `to`: those on `from` follow it. */
  function RepointTriggers(m: map<string, Trigger>, from: string, to: string): (r: map<string, Trigger>)
    ensures r.Keys == m.Keys
    ensures forall n :: n in m && m[n].table != from ==> r[n] == m[n]
  {
    map n | n in m :: if m[n].table == from then m[n].(table := to) else m[n]
  }

  function Exec(d: Db, s: Stmt): Result<Db>
  {
    match s
    case CreateTable(name, cols, ifNotExists) =>
      if Exists(d, name) then (if ifNotExists then Ok(d) else Err("table already exists"))
      else Ok(d.(tables := d.tables[name := Table(cols, [])]))
    case CreateIndex(name, table, indexed, unique, ifNotExists) =>
      if name in d.indexes then (if ifNotExists then Ok(d) else Err("index already exists"))
      else if table !in d.tables then Err("no such table")
      else if !Covers(d.tables[table].columns, indexed) then Err("no such column")
      else if unique && Duplicated(d.tables[table].rows, indexed) then Err("UNIQUE constraint failed")
      else Ok(d.(indexes := d.indexes[name := Index(table, unique)]))
    case AddColumn(table, col) =>
      if table !in d.tables then Err("no such table")
      else if col.name in Names(d.tables[table].columns) then Err("duplicate column name")
      else
        var t := d.tables[table];
        Ok(d.(tables := d.tables[table := Table(t.columns + [col],
          seq(|t.rows|, k requires 0 <= k < |t.rows| => t.rows[k][col.name := col.dflt]))]))
    case DropTable(name, ifExists) =>
      if name in d.tables then
        Ok(d.(tables := d.tables - {name},
                   indexes := IndexesOff(d.indexes, name),
                   triggers := TriggersOff(d.triggers, name)))
      else if name in d.fts then Ok(d.(fts := d.fts - {name}))
      else if ifExists then Ok(d)
      else Err("no such table")
    case RenameTable(from, to) =>
      if from !in d.tables || Exists(d, to) then Err("cannot rename")
      else
        Ok(d.(tables := (d.tables - {from})[to := d.tables[from]],
                   indexes := RepointIndexes(d.indexes, from, to),
                   triggers := RepointTriggers(d.triggers, from, to)))
    case CopyRows(from, to, cols) =>
      if from !in d.tables || to !in d.tables then Err("no such table")
      else if exists i :: 0 <= i < |cols| && (cols[i] !in Names(d.tables[from].columns) || cols[i] !in Names(d.tables[to].columns))
      then Err("no such column")
      else
        var moved := ProjectAll(d.tables[from].rows, cols);
        if exists k :: 0 <= k < |moved| && !Fits(d.tables[to].columns, moved[k]) then Err("constraint failed")
        else Ok(d.(tables := d.tables[to := Table(d.tables[to].columns, d.tables[to].rows + moved)]))
    case CreateFts(name, source, cols, ifNotExists) =>
      if Exists(d, name) then (if ifNotExists then Ok(d) else Err("table already exists"))
      else Ok(d.(fts := d.fts[name := Fts(source, cols, [])]))
    case PopulateFts(name) =>
      if name !in d.fts || d.fts[name].source !in d.tables then Err("no such table")
      else
        var f := d.fts[name];
        var src := d.tables[f.source];
        if exists i :: 0 <= i < |f.columns| && f.columns[i] !in Names(src.columns) then Err("no such column")
        else Ok(d.(fts := d.fts[name := f.(entries := f.entries + MirrorAll(src.rows, f.columns))]))
    case CreateTrigger(name, trig, ifNotExists) =>
      if name in d.triggers then (if ifNotExists then Ok(d) else Err("trigger already exists"))
      else if trig.table !in d.tables then Err("no such table")
      else Ok(d.(triggers := d.triggers[name := trig]))
    case DropTrigger(name) =>
      Ok(d.(triggers := d.triggers - {name}))
    case Insert(table, r) =>
      InsertRow(d, table, r)
  }

  /** The database after a statement list, and whether every statement succeeded. */
  datatype Outcome = Outcome(db: Db, ok: bool)

  /** One `db.run` of several statements, or several `db.run` calls: stop at the first failure, keep the rest. */
  function ExecAll(d: Db, stmts: seq<Stmt>): (out: Outcome)
    ensures out.ok && stmts == [] ==> out.db == d
    ensures !out.ok ==> stmts != []
    decreases |stmts|
  {
    if stmts == [] then Outcome(d, true)
    else
      match Exec(d, stmts[0])
      case Err(_) => Outcome(d, false)
      case Ok(d1) => ExecAll(d1, stmts[1..])
  }

  /** Running `a + b` is running `a`, then `b` if `a` succeeded. */
  lemma {:induction false} ExecAllAppend(d: Db, a: seq<Stmt>, b: seq<Stmt>)
    ensures ExecAll(d, a + b) == if ExecAll(d, a).ok then ExecAll(ExecAll(d, a).db, b) else ExecAll(d, a)
    decreases |a|
  {
    if a == [] {
      assert a + b == b;
    } else {
      assert (a + b)[0] == a[0] && (a + b)[1..] == a[1..] + b;
      if Exec(d, a[0]).Ok? {
        ExecAllAppend(Exec(d, a[0]).value, a[1..], b);
      }
    }
  }

  /** `BEGIN ... COMMIT`, with `ROLLBACK` restoring the prior state on failure. */
  function Transaction(d: Db, stmts: seq<Stmt>): (out: Outcome)
    ensures !out.ok ==> out.db == d
    ensures out.ok <==> ExecAll(d, stmts).ok
  {
    var r := ExecAll(d, stmts);
    if r.ok then r else Outcome(d, false)
  }


  // ---------------------------------------------------------------- properties

  /** Indexes and triggers name existing tables, and no name is both a table and an FTS table. */
  predicate Wf(d: Db)
  {
    (forall n :: n in d.indexes ==> d.indexes[n].table in d.tables)
    && (forall n :: n in d.triggers ==> d.triggers[n].table in d.tables)
    && (forall n :: n in d.tables ==> n !in d.fts)
  }

  /**
   * The rebuild of a table under new columns: create `tmp`, copy the rows
   * column by column, drop the old table, rename `tmp`.
   */
  function Rebuild(name: string, tmp: string, cols: seq<Column>): seq<Stmt>
  {
    [CreateTable(tmp, cols, false), CopyRows(name, tmp, Names(cols)), DropTable(name, false), RenameTable(tmp, name)]
  }

  /** The source table has every column the rebuild copies, and every copied row fits the new columns. */
  predicate RebuildFits(d: Db, name: string, cols: seq<Column>)
  {
    name in d.tables
    && (forall i :: 0 <= i < |cols| ==> cols[i].name in Names(d.tables[name].columns))
    && (forall k :: 0 <= k < |d.tables[name].rows| ==> Fits(cols, Project(d.tables[name].rows[k], Names(cols))))
  }

  /** The database after a successful rebuild. */
  function Rebuilt(d: Db, name: string, cols: seq<Column>): Db
    requires name in d.tables
  {
    d.(tables := d.tables[name := Table(cols, ProjectAll(d.tables[name].rows, Names(cols)))],
       indexes := IndexesOff(d.indexes, name),
       triggers := TriggersOff(d.triggers, name))
  }

  /** After the first two rebuild steps: `tmp` holds the copied rows. */
  function Copied(d: Db, name: string, tmp: string, cols: seq<Column>): Db
    requires name in d.tables
  {
    d.(tables := d.tables[tmp := Table(cols, ProjectAll(d.tables[name].rows, Names(cols)))])
  }

  lemma RebuildCreateStep(d: Db, tmp: string, cols: seq<Column>)
    requires !Exists(d, tmp)
    ensures Exec(d, CreateTable(tmp, cols, false)) == Ok(d.(tables := d.tables[tmp := Table(cols, [])]))
  {
  }

  lemma RebuildCopyStep(d: Db, name: string, tmp: string, cols: seq<Column>)
    requires name != tmp && name in d.tables && RebuildFits(d, name, cols)
    ensures Exec(d.(tables := d.tables[tmp := Table(cols, [])]), CopyRows(name, tmp, Names(cols)))
      == Ok(Copied(d, name, tmp, cols))
  {
    var d1 := d.(tables := d.tables[tmp := Table(cols, [])]);
    var ns := Names(cols);
    var moved := ProjectAll(d.tables[name].rows, ns);
    assert d1.tables[name] == d.tables[name];
    assert forall i :: 0 <= i < |ns| ==> ns[i] in Names(d1.tables[tmp].columns) && ns[i] in Names(d1.tables[name].columns);
    assert forall k :: 0 <= k < |moved| ==> Fits(d1.tables[tmp].columns, moved[k]);
    assert d1.tables[tmp].rows + moved == moved;
    assert d1.tables[tmp := Table(cols, moved)] == d.tables[tmp := Table(cols, moved)];
  }

  lemma RebuildCopyFails(d: Db, name: string, tmp: string, cols: seq<Column>)
    requires name != tmp && name in d.tables && !RebuildFits(d, name, cols)
    ensures Exec(d.(tables := d.tables[tmp := Table(cols, [])]), CopyRows(name, tmp, Names(cols))).Err?
  {
    var d1 := d.(tables := d.tables[tmp := Table(cols, [])]);
    var ns := Names(cols);
    var moved := ProjectAll(d.tables[name].rows, ns);
    assert d1.tables[name] == d.tables[name];
    if !(forall i :: 0 <= i < |cols| ==> cols[i].name in Names(d.tables[name].columns)) {
      var i :| 0 <= i < |cols| && cols[i].name !in Names(d.tables[name].columns);
      assert ns[i] !in Names(d1.tables[name].columns);
      CopyRowsErr(d1, name, tmp, ns);
    } else {
      var k :| 0 <= k < |d.tables[name].rows| && !Fits(cols, Project(d.tables[name].rows[k], ns));
      assert !Fits(d1.tables[tmp].columns, moved[k]);
      CopyRowsErr(d1, name, tmp, ns);
    }
  }

  /** A copy fails when a column is missing on either side or a moved row breaks a constraint of the target. */
  lemma CopyRowsErr(d: Db, from: string, to: string, cols: seq<string>)
    requires from in d.tables && to in d.tables
    requires (exists i :: 0 <= i < |cols| && (cols[i] !in Names(d.tables[from].columns) || cols[i] !in Names(d.tables[to].columns)))
      || (exists k :: 0 <= k < |d.tables[from].rows| && !Fits(d.tables[to].columns, ProjectAll(d.tables[from].rows, cols)[k]))
    ensures Exec(d, CopyRows(from, to, cols)).Err?
  {
  }

  lemma RebuildDropStep(d: Db, name: string)
    requires name in d.tables
    ensures Exec(d, DropTable(name, false)) == Ok(d.(tables := d.tables - {name},
      indexes := IndexesOff(d.indexes, name),
      triggers := TriggersOff(d.triggers, name)))
  {
  }

  lemma RebuildRenameStep(d: Db, name: string, tmp: string, cols: seq<Column>)
    requires Wf(d) && name != tmp && !Exists(d, tmp) && name in d.tables
    ensures var c := Copied(d, name, tmp, cols);
      var d3 := c.(tables := c.tables - {name},
        indexes := IndexesOff(c.indexes, name),
        triggers := TriggersOff(c.triggers, name));
      Exec(d3, RenameTable(tmp, name)) == Ok(Rebuilt(d, name, cols))
  {
    var c := Copied(d, name, tmp, cols);
    var d3 := c.(tables := c.tables - {name},
      indexes := IndexesOff(c.indexes, name),
      triggers := TriggersOff(c.triggers, name));
    var r := Rebuilt(d, name, cols);
    assert !Exists(d3, name);
    assert (d3.tables - {tmp})[name := d3.tables[tmp]] == r.tables;
    assert forall n :: n in d3.indexes ==> d3.indexes[n].table != tmp;
    assert forall n :: n in d3.triggers ==> d3.triggers[n].table != tmp;
    assert RepointIndexes(d3.indexes, tmp, name) == d3.indexes == r.indexes;
    assert RepointTriggers(d3.triggers, tmp, name) == d3.triggers == r.triggers;
  }

  /**
   * A rebuild succeeds exactly when the copied columns exist and every row
   * fits; it then keeps every row (projected on the copied columns, in
   * order), leaves the other tables and the FTS tables alone, and loses the
   * indexes and triggers of the old table.
   */
  lemma RebuildEffect(d: Db, name: string, tmp: string, cols: seq<Column>)
    requires Wf(d) && name != tmp && !Exists(d, tmp)
    ensures var o := ExecAll(d, Rebuild(name, tmp, cols));
      (o.ok <==> RebuildFits(d, name, cols))
      && (o.ok ==> o.db == Rebuilt(d, name, cols))
  {
    var stmts := Rebuild(name, tmp, cols);
    var d1 := d.(tables := d.tables[tmp := Table(cols, [])]);
    RebuildCreateStep(d, tmp, cols);
    assert ExecAll(d, stmts) == ExecAll(d1, stmts[1..]);
    if name in d.tables {
      if !RebuildFits(d, name, cols) {
        RebuildCopyFails(d, name, tmp, cols);
      } else {
        RebuildCopyStep(d, name, tmp, cols);
        var c := Copied(d, name, tmp, cols);
        assert ExecAll(d1, stmts[1..]) == ExecAll(c, stmts[2..]);
        RebuildDropStep(c, name);
        RebuildRenameStep(d, name, tmp, cols);
        var d3 := c.(tables := c.tables - {name},
          indexes := IndexesOff(c.indexes, name),
          triggers := TriggersOff(c.triggers, name));
        assert stmts[2..][1..] == [stmts[3]];
        assert ExecAll(c, stmts[2..]) == ExecAll(d3, [stmts[3]]);
        assert ExecAll(d3, [stmts[3]]) == Outcome(Rebuilt(d, name, cols), true);
      }
    } else {
      assert stmts[1] == CopyRows(name, tmp, Names(cols));
    }
  }

  /**
   * A new index is created exactly when its table exists, has every indexed
   * column and, for a UNIQUE index, holds no two rows with the same
   * non-NULL key; only the index map changes.
   */
  lemma CreateIndexEffect(d: Db, s: Stmt)
    requires s.CreateIndex? && s.name !in d.indexes
    ensures Exec(d, s).Ok? <==>
      (s.table in d.tables && Covers(d.tables[s.table].columns, s.indexed)
       && !(s.unique && Duplicated(d.tables[s.table].rows, s.indexed)))
    ensures Exec(d, s).Ok? ==> Exec(d, s).value == d.(indexes := d.indexes[s.name := Index(s.table, s.unique)])
  {
  }

  /** An index a migration declares: its name and the columns it covers. */
  datatype IndexDef = IndexDef(name: string, columns: seq<string>)

  function IndexNames(defs: seq<IndexDef>): (r: seq<string>)
    ensures |r| == |defs| && forall i :: 0 <= i < |defs| ==> r[i] == defs[i].name
  {
    seq(|defs|, i requires 0 <= i < |defs| => defs[i].name)
  }

  /** Statements creating the declared indexes on a table, none of them UNIQUE. */
  function IndexesOn(table: string, defs: seq<IndexDef>, ifNotExists: bool): (r: seq<Stmt>)
    ensures |r| == |defs|
    ensures forall i :: 0 <= i < |defs| ==> r[i] == CreateIndex(defs[i].name, table, defs[i].columns, false, ifNotExists)
  {
    seq(|defs|, i requires 0 <= i < |defs| => CreateIndex(defs[i].name, table, defs[i].columns, false, ifNotExists))
  }

  /** Creating indexes without IF NOT EXISTS adds exactly them, on their table, and touches nothing else. */
  lemma {:induction false} IndexesOnEffect(d: Db, table: string, defs: seq<IndexDef>)
    requires table in d.tables
    ensures var o := ExecAll(d, IndexesOn(table, defs, false));
      o.ok ==> (o.db.tables == d.tables && o.db.fts == d.fts && o.db.triggers == d.triggers
        && (forall n :: n in d.indexes ==> n in o.db.indexes && o.db.indexes[n] == d.indexes[n])
        && (forall n :: n in o.db.indexes ==> n in d.indexes || n in IndexNames(defs))
        && (forall n :: n in IndexNames(defs) ==> n in o.db.indexes && o.db.indexes[n] == Index(table, false)))
    decreases |defs|
  {
    var stmts := IndexesOn(table, defs, false);
    if defs != [] && Exec(d, stmts[0]).Ok? {
      var n0 := defs[0].name;
      assert stmts[0] == CreateIndex(n0, table, defs[0].columns, false, false);
      var d1 := Exec(d, stmts[0]).value;
      assert n0 !in d.indexes && d1 == d.(indexes := d.indexes[n0 := Index(table, false)]);
      assert stmts[1..] == IndexesOn(table, defs[1..], false);
      assert ExecAll(d, stmts) == ExecAll(d1, stmts[1..]);
      IndexesOnEffect(d1, table, defs[1..]);
      var o := ExecAll(d, stmts);
      if o.ok {
        assert forall n :: n in IndexNames(defs) <==> n == n0 || n in IndexNames(defs[1..]) by {
          assert IndexNames(defs) == [n0] + IndexNames(defs[1..]);
        }
        forall n | n in d.indexes
          ensures n in o.db.indexes && o.db.indexes[n] == d.indexes[n]
        {
          assert n in d1.indexes && d1.indexes[n] == d.indexes[n];
        }
      }
    }
  }

  /**
   * A rebuild followed by creating indexes on the rebuilt table: it fails
   * when a row does not fit; when it succeeds the table holds the projected
   * rows, the FTS tables are untouched, the old table's triggers are gone,
   * and its indexes are exactly the newly created ones.
   */
  lemma RebuildWithIndexes(d: Db, name: string, tmp: string, cols: seq<Column>, defs: seq<IndexDef>)
    requires Wf(d) && name != tmp
    ensures var o := ExecAll(d, Rebuild(name, tmp, cols) + IndexesOn(name, defs, false));
      (!RebuildFits(d, name, cols) ==> !o.ok)
      && (o.ok ==> (RebuildFits(d, name, cols)
        && o.db.tables == d.tables[name := Table(cols, ProjectAll(d.tables[name].rows, Names(cols)))]
        && o.db.fts == d.fts && o.db.triggers == TriggersOff(d.triggers, name)
        && (forall n :: n in o.db.indexes && o.db.indexes[n].table == name ==> n in IndexNames(defs))
        && (forall n :: n in o.db.indexes && o.db.indexes[n].table != name ==>
              n in d.indexes && d.indexes[n] == o.db.indexes[n])
        && (forall n :: n in d.indexes && d.indexes[n].table != name ==>
              n in o.db.indexes && o.db.indexes[n] == d.indexes[n])
        && (forall n :: n in IndexNames(defs) ==> n in o.db.indexes && o.db.indexes[n] == Index(name, false))))
  {
    var r := Rebuild(name, tmp, cols);
    var ix := IndexesOn(name, defs, false);
    ExecAllAppend(d, r, ix);
    if Exists(d, tmp) {
      assert !ExecAll(d, r).ok;
    } else {
      RebuildEffect(d, name, tmp, cols);
      if ExecAll(d, r).ok {
        var rb := Rebuilt(d, name, cols);
        IndexesOnEffect(rb, name, defs);
      }
    }
  }

  /** Statements that only create, each IF NOT EXISTS. */
  predicate CreatesOnly(stmts: seq<Stmt>)
  {
    forall i :: 0 <= i < |stmts| ==>
      (stmts[i].CreateTable? && stmts[i].ifNotExists) || (stmts[i].CreateIndex? && stmts[i].ifNotExists)
  }

  /** Statements that only create: tables, indexes, FTS tables and triggers. */
  predicate Additive(stmts: seq<Stmt>)
  {
    forall i :: 0 <= i < |stmts| ==>
      stmts[i].CreateTable? || stmts[i].CreateIndex? || stmts[i].CreateFts? || stmts[i].CreateTrigger?
  }

  /** Every table and index a list of statements names as created exists. */
  predicate Created(d: Db, stmts: seq<Stmt>)
  {
    forall i :: 0 <= i < |stmts| ==>
      (stmts[i].CreateTable? ==> Exists(d, stmts[i].name)) && (stmts[i].CreateIndex? ==> stmts[i].name in d.indexes)
  }

  /** A create statement keeps every table and index that existed, and adds its own. */
  lemma CreateGrows(d: Db, s: Stmt)
    requires s.CreateTable? || s.CreateIndex? || s.CreateFts? || s.CreateTrigger?
    requires Exec(d, s).Ok?
    ensures var d1 := Exec(d, s).value;
      (forall n :: Exists(d, n) ==> Exists(d1, n)) && (forall n :: n in d.indexes ==> n in d1.indexes)
      && (s.CreateTable? ==> Exists(d1, s.name)) && (s.CreateIndex? ==> s.name in d1.indexes)
  {
  }

  /** After a create-only list succeeds, all it creates exists, next to all that existed before. */
  lemma {:induction false} AdditiveCreated(d: Db, stmts: seq<Stmt>)
    requires Additive(stmts)
    requires ExecAll(d, stmts).ok
    ensures Created(ExecAll(d, stmts).db, stmts)
    ensures var d1 := ExecAll(d, stmts).db;
      (forall n :: Exists(d, n) ==> Exists(d1, n)) && (forall n :: n in d.indexes ==> n in d1.indexes)
    decreases |stmts|
  {
    if stmts != [] {
      var d1 := Exec(d, stmts[0]).value;
      CreateGrows(d, stmts[0]);
      assert Additive(stmts[1..]);
      AdditiveCreated(d1, stmts[1..]);
      var e := ExecAll(d, stmts).db;
      forall i | 0 <= i < |stmts|
        ensures (stmts[i].CreateTable? ==> Exists(e, stmts[i].name)) && (stmts[i].CreateIndex? ==> stmts[i].name in e.indexes)
      {
        if i > 0 {
          assert stmts[i] == stmts[1..][i - 1];
        }
      }
    }
  }

  /** A create-only list changes nothing when everything it creates is already there. */
  lemma {:induction false} CreatesOnlyNoop(d: Db, stmts: seq<Stmt>)
    requires CreatesOnly(stmts)
    requires Created(d, stmts)
    ensures ExecAll(d, stmts) == Outcome(d, true)
    decreases |stmts|
  {
    if stmts != [] {
      assert Exec(d, stmts[0]) == Ok(d);
      assert CreatesOnly(stmts[1..]);
      forall i | 0 <= i < |stmts[1..]|
        ensures (stmts[1..][i].CreateTable? ==> Exists(d, stmts[1..][i].name))
             && (stmts[1..][i].CreateIndex? ==> stmts[1..][i].name in d.indexes)
      {
        assert stmts[1..][i] == stmts[i + 1];
      }
      CreatesOnlyNoop(d, stmts[1..]);
    }
  }

  /**
   * Idempotence: once a create-only list has run, running it again succeeds
   * and changes nothing.
   */
  lemma CreatesOnlyIdempotent(d: Db, stmts: seq<Stmt>)
    requires CreatesOnly(stmts)
    requires ExecAll(d, stmts).ok
    ensures var d1 := ExecAll(d, stmts).db; ExecAll(d1, stmts) == Outcome(d1, true)
  {
    AdditiveCreated(d, stmts);
    CreatesOnlyNoop(ExecAll(d, stmts).db, stmts);
  }

  /** An FTS table holds exactly the mirrors of its source's rows. */
  predicate InSync(d: Db, f: string)
  {
    f in d.fts && d.fts[f].source in d.tables
    && multiset(d.fts[f].entries) == multiset(MirrorAll(d.tables[d.fts[f].source].rows, d.fts[f].columns))
  }

  /** With an insert trigger in place, an insert into the source keeps the FTS table in step. */
  lemma InsertKeepsSync(d: Db, table: string, r: Record, f: string)
    requires InSync(d, f) && d.fts[f].source == table && Fires(d, table, f, OnInsert)
    requires InsertRow(d, table, r).Ok?
    ensures InSync(InsertRow(d, table, r).value, f)
  {
    var t := d.tables[table];
    var cols := d.fts[f].columns;
    var full := WithDefaults(t.columns, r);
    assert MirrorAll(t.rows + [full], cols) == MirrorAll(t.rows, cols) + [Mirror(full, cols)];
  }

  /** With a delete trigger in place, a delete from the source keeps the FTS table in step. */
  lemma DeleteKeepsSync(d: Db, table: string, k: nat, f: string)
    requires InSync(d, f) && d.fts[f].source == table && Fires(d, table, f, OnDelete)
    requires table in d.tables && k < |d.tables[table].rows|
    ensures InSync(DeleteRow(d, table, k), f)
  {
    var rows := d.tables[table].rows;
    var cols := d.fts[f].columns;
    var m := Mirror(rows[k], cols);
    MirrorSplit(rows, k, cols);
    assert m in multiset(d.fts[f].entries);
  }

  /** With an update trigger in place, an update of the source keeps the FTS table in step. */
  lemma UpdateKeepsSync(d: Db, table: string, k: nat, r: Record, f: string)
    requires InSync(d, f) && d.fts[f].source == table && Fires(d, table, f, OnUpdate)
    requires table in d.tables && k < |d.tables[table].rows|
    ensures InSync(UpdateRow(d, table, k, r), f)
  {
    var rows := d.tables[table].rows;
    var cols := d.fts[f].columns;
    var es := d.fts[f].entries;
    var m := Mirror(rows[k], cols);
    var rest := multiset(MirrorAll(rows[..k] + rows[k + 1..], cols));
    MirrorSplit(rows, k, cols);
    MirrorSplit(rows[k := r], k, cols);
    assert rows[k := r][..k] == rows[..k] && rows[k := r][k + 1..] == rows[k + 1..];
    assert multiset(es) == rest + multiset{m};
    assert m in multiset(es);
    var d1 := UpdateRow(d, table, k, r);
    assert d1.fts[f].entries == RemoveOne(es, m) + [Mirror(r, cols)];
    assert d1.fts[f].source == table && d1.fts[f].columns == cols;
    assert d1.tables[table].rows == rows[k := r];
    assert multiset(d1.fts[f].entries) == rest + multiset{Mirror(r, cols)};
  }

  lemma MirrorSplit(rows: seq<Record>, k: nat, cols: seq<string>)
    requires k < |rows|
    ensures multiset(MirrorAll(rows, cols))
      == multiset(MirrorAll(rows[..k] + rows[k + 1..], cols)) + multiset{Mirror(rows[k], cols)}
  {
    var pre, post := rows[..k], rows[k + 1..];
    assert rows == pre + [rows[k]] + post;
    MirrorAppend(pre + [rows[k]], post, cols);
    MirrorAppend(pre, [rows[k]], cols);
    MirrorAppend(pre, post, cols);
    assert MirrorAll([rows[k]], cols) == [Mirror(rows[k], cols)];
  }

  /** Mirroring two lists of rows is mirroring each in turn. */
  lemma MirrorAppend(a: seq<Record>, b: seq<Record>, cols: seq<string>)
    ensures MirrorAll(a + b, cols) == MirrorAll(a, cols) + MirrorAll(b, cols)
  {
    assert forall k :: 0 <= k < |a + b| ==> (a + b)[k] == if k < |a| then a[k] else b[k - |a|];
  }

  /** One added column: every column already there stays, the new one is there, no table appears or goes. */
  lemma AddColumnStep(d: Db, table: string, col: Column)
    requires Exec(d, AddColumn(table, col)).Ok?
    ensures var d1 := Exec(d, AddColumn(table, col)).value;
      (forall t, c :: HasColumn(d, t, c) ==> HasColumn(d1, t, c))
      && HasColumn(d1, table, col.name) && d1.tables.Keys == d.tables.Keys
      && d1.fts == d.fts && d1.indexes == d.indexes && d1.triggers == d.triggers
  {
    var cols := d.tables[table].columns;
    var d1 := Exec(d, AddColumn(table, col)).value;
    assert d1.tables[table].columns == cols + [col];
    forall c | c in Names(cols)
      ensures c in Names(cols + [col])
    {
      var i :| 0 <= i < |cols| && Names(cols)[i] == c;
      assert Names(cols + [col])[i] == c;
    }
    assert Names(cols + [col])[|cols|] == col.name;
  }

  /** Adding columns keeps every column already there and adds each named one. */
  lemma {:induction false} AddColumnsEffect(d: Db, stmts: seq<Stmt>)
    requires forall i :: 0 <= i < |stmts| ==> stmts[i].AddColumn?
    requires ExecAll(d, stmts).ok
    ensures var d1 := ExecAll(d, stmts).db;
      (forall t, c :: HasColumn(d, t, c) ==> HasColumn(d1, t, c))
      && (forall i :: 0 <= i < |stmts| ==> HasColumn(d1, stmts[i].table, stmts[i].column.name))
      && d1.tables.Keys == d.tables.Keys && d1.fts == d.fts && d1.indexes == d.indexes && d1.triggers == d.triggers
    decreases |stmts|
  {
    if stmts != [] {
      AddColumnStep(d, stmts[0].table, stmts[0].column);
      var d1 := Exec(d, stmts[0]).value;
      AddColumnsEffect(d1, stmts[1..]);
      forall i | 0 < i < |stmts|
        ensures HasColumn(ExecAll(d, stmts).db, stmts[i].table, stmts[i].column.name)
      {
        assert stmts[i] == stmts[1..][i - 1];
      }
    }
  }

  /** A row insert touches only rows and FTS entries. */
  lemma InsertRowKeeps(d: Db, table: string, r: Record)
    requires InsertRow(d, table, r).Ok?
    ensures var d1 := InsertRow(d, table, r).value;
      d1.tables.Keys == d.tables.Keys && d1.fts.Keys == d.fts.Keys
      && (forall f :: f in d.fts ==> d1.fts[f].source == d.fts[f].source && d1.fts[f].columns == d.fts[f].columns)
      && (forall t :: t in d.tables ==> d1.tables[t].columns == d.tables[t].columns)
      && d1.indexes == d.indexes && d1.triggers == d.triggers
  {
  }
}
