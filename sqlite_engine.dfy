/**
 * An abstract view of the SQLite library as the family-tree database layer uses it.
 *
 * The engine is a value: the rows the file holds as committed, the rows the
 * connection sees (its uncommitted changes included), whether a transaction is open, which prepared statements are still alive, and the
 * ordered record of the statement and transaction events issued on the
 * connection. The outcomes the real library would decide on its own (a
 * prepare, a bind, a step, an exec) are supplied by the caller as result
 * codes; only what the schema itself decides is computed here (a statement
 * naming a table that does not exist does not compile, table names being
 * compared without regard to ASCII case).
 */
module SqliteEngine {
  import opened Wrappers

  /** Result codes of the SQLite C interface are non-negative integers. */
  type ResultCode = nat

  const SQLITE_OK: ResultCode := 0
  const SQLITE_ERROR: ResultCode := 1
  const SQLITE_CANTOPEN: ResultCode := 14
  const SQLITE_SCHEMA: ResultCode := 17
  const SQLITE_CONSTRAINT: ResultCode := 19
  const SQLITE_MISUSE: ResultCode := 21
  const SQLITE_ROW: ResultCode := 100
  const SQLITE_DONE: ResultCode := 101

  /** Prepared statement handles, numbered in order of preparation. */
  type Stmt = nat

  /** Statement and transaction events, in the order the connection sees them. */
  datatype Event = Prepared(stmt: Stmt) | Began | Ended | Finalized(stmt: Stmt)

  /** A row of ROOTTABLE: ROOTID (autoincrement), NAME, TABLENAME. */
  datatype RootRow = RootRow(rootId: nat, name: string, tableName: string)

  /** The bound values of one person-table row, every column but ENTRYID. */
  datatype PersonValues = PersonValues(
    id: int, name: string, birthDate: string, isAlive: string, deathDate: string,
    info: string, birthPlace: string, photo: string, sex: string,
    fatherId: int, motherId: int, childrenCnt: int, childrenId: string)

  /** A row of a per-root person table: ENTRYID (autoincrement) and the bound values. */
  datatype PersonRow = PersonRow(entryId: nat, values: PersonValues)

  ghost predicate EntryIdsConsecutive(rows: seq<PersonRow>) {
    forall i | 0 <= i < |rows| :: rows[i].entryId == i + 1
  }

  /** Registry rows whose NAME the query's filter accepts, in table order. */
  function Select(rows: seq<RootRow>, matches: string -> bool): (r: seq<RootRow>)
    ensures |r| <= |rows|
  {
    if rows == [] then []
    else if matches(rows[0].name) then [rows[0]] + Select(rows[1..], matches)
    else Select(rows[1..], matches)
  }

  /**
   * The text the library receives for a std::string passed through `c_str()`
   * with length -1: everything before its first NUL character.
   */
  function CText(s: string): (r: string)
    ensures r <= s && '\0' !in r
    ensures |r| < |s| ==> s[|r|] == '\0'
  {
    if s == [] || s[0] == '\0' then [] else [s[0]] + CText(s[1..])
  }

  function LowerAscii(ch: char): char {
    if 'A' <= ch <= 'Z' then (ch as int - 'A' as int + 'a' as int) as char else ch
  }

  /**
   * SQLite compares table names ignoring the case of ASCII letters (and of no
   * other letter); the schema is keyed by this folded form of a name.
   */
  function Fold(name: string): (r: string)
    ensures |r| == |name|
  {
    seq(|name|, i requires 0 <= i < |name| => LowerAscii(name[i]))
  }

  /** The folded name of `ROOTTABLE`. */
  const REGISTRY_KEY: string := "roottable"

  /**
   * The contents of the database: whether ROOTTABLE exists, its rows, and
   * the per-root person tables by folded name. Rows are never deleted by this program,
   * so AUTOINCREMENT hands out 1, 2, 3, ... in insertion order.
   */
  datatype Store = Store(rootTableExists: bool, registry: seq<RootRow>, tables: map<string, seq<PersonRow>>)
  {
    /**
     * Besides the autoincrement numbering, no person table holds the name of
     * the registry: this program creates a person table only once ROOTTABLE
     * exists, and a CREATE TABLE IF NOT EXISTS under its name is then a no-op.
     */
    ghost predicate WellFormed() {
      && (forall i | 0 <= i < |registry| :: registry[i].rootId == i + 1)
      && (forall t | t in tables :: EntryIdsConsecutive(tables[t]))
      && REGISTRY_KEY !in tables
    }

    /** CREATE TABLE IF NOT EXISTS `ROOTTABLE`. */
    function CreateRootTable(): Store {
      this.(rootTableExists := true)
    }

    /** INSERT INTO ROOTTABLE (NAME, TABLENAME): no uniqueness constraint on either column. */
    function InsertRoot(name: string, tableName: string): Store {
      this.(registry := registry + [RootRow(|registry| + 1, name, tableName)])
    }

    /**
     * CREATE TABLE IF NOT EXISTS `tableName` with the person schema: nothing
     * happens when a table of that name, in any ASCII case, exists already,
     * ROOTTABLE included.
     */
    function CreatePersonTable(tableName: string): Store {
      var key := Fold(tableName);
      if key in tables || (key == REGISTRY_KEY && rootTableExists) then this
      else this.(tables := tables[key := []])
    }

    /** INSERT INTO tableName: ID is NOT NULL but not unique; ENTRYID is the next autoincrement. */
    function InsertPerson(tableName: string, v: PersonValues): Store
      requires Fold(tableName) in tables
    {
      var key := Fold(tableName);
      this.(tables := tables[key := tables[key] + [PersonRow(|tables[key]| + 1, v)]])
    }
  }

  /** What a statement's SQL refers to, as far as compiling it depends on the schema. */
  datatype Target =
    | RegistryInsert
    | RegistrySelect
    | PersonTableCreate(table: string)
    | PersonInsert(table: string)

  datatype PrepareResult = PrepareResult(engine: Engine, code: ResultCode, stmt: Option<Stmt>)

  /**
   * One connection to the database file. `committed` is what the file holds;
   * `store` is what this connection sees, which includes the changes of its
   * open transaction.
   */
  datatype Engine = Engine(store: Store, committed: Store, inTransaction: bool, live: set<Stmt>, nextStmt: Stmt, events: seq<Event>)
  {
    ghost predicate Valid() {
      && store.WellFormed()
      && committed.WellFormed()
      && (forall s | s in live :: s < nextStmt)
    }

    predicate Compiles(target: Target) {
      match target
      case RegistryInsert => store.rootTableExists
      case RegistrySelect => store.rootTableExists
      case PersonTableCreate(_) => true
      // the statement's text ends at a NUL in the name, before its column list
      case PersonInsert(t) => '\0' !in t && Fold(t) in store.tables
    }

    /**
     * sqlite3_prepare: a statement over a missing table fails with SQLITE_ERROR;
     * otherwise the supplied outcome decides. Only a successful prepare yields a
     * statement (the library sets the handle to NULL on failure).
     */
    function Prepare(target: Target, outcome: ResultCode): PrepareResult {
      var code := if Compiles(target) then outcome else SQLITE_ERROR;
      if code == SQLITE_OK then
        PrepareResult(this.(live := live + {nextStmt}, nextStmt := nextStmt + 1, events := events + [Prepared(nextStmt)]),
                      SQLITE_OK, Some(nextStmt))
      else
        PrepareResult(this, code, None)
    }

    /** "BEGIN TRANSACTION;": refused inside an open transaction. */
    function Begin(): (Engine, ResultCode) {
      if inTransaction then (this.(events := events + [Began]), SQLITE_ERROR)
      else (this.(inTransaction := true, events := events + [Began]), SQLITE_OK)
    }

    /** "END TRANSACTION;" (a COMMIT): refused when no transaction is open. */
    function End(): (Engine, ResultCode) {
      if inTransaction then (this.(committed := store, inTransaction := false, events := events + [Ended]), SQLITE_OK)
      else (this.(events := events + [Ended]), SQLITE_ERROR)
    }

    /** sqlite3_finalize: the statement is released. */
    function Finalize(s: Stmt): Engine {
      this.(live := live - {s}, events := events + [Finalized(s)])
    }

    /**
     * sqlite3_exec of the CREATE_TABLES script, which opens with "BEGIN TRANSACTION;"
     * and never commits. The BEGIN fails inside an open transaction and stops the
     * script; otherwise the transaction stays open whatever the CREATE yields.
     */
    function ExecCreateTables(outcome: ResultCode): (Engine, ResultCode) {
      if inTransaction then (this.(events := events + [Began]), SQLITE_ERROR)
      else if outcome == SQLITE_OK then
        (this.(store := store.CreateRootTable(), inTransaction := true, events := events + [Began]), SQLITE_OK)
      else (this.(inTransaction := true, events := events + [Began]), outcome)
    }

    /**
     * The connection is closed or abandoned: its open transaction is rolled
     * back, and the next connection sees what the file holds.
     */
    function Disconnect(): Engine {
      this.(store := committed, inTransaction := false)
    }
  }

  /** The engine behind a file holding `store`, before any connection has used it. */
  function Fresh(store: Store): (e: Engine)
    ensures store.WellFormed() ==> e.Valid()
  {
    Engine(store, store, false, {}, 0, [])
  }
}
