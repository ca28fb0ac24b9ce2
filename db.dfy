/**
 * The SQLite wrapper DB and its scoped guard dbTransactor (Source/DB_src/db.cpp,
 * Source/DB_src/db.h), as classes whose methods change the connection state
 * step by step. Every method is proved to compute the matching function of
 * module DbSpec, where the properties of each operation are stated.
 */
module Db {
  import opened Wrappers
  import opened SqliteEngine
  import DbSpec

  /**
   * The write step loop `do { ret = sqlite3_step(stmt); } while (ret == SQLITE_SCHEMA);`
   * over the codes the engine reports: it re-steps exactly while the code is
   * SQLITE_SCHEMA and stops at the first other code.
   */
  method StepWrite(steps: DbSpec.WriteSteps) returns (code: ResultCode, count: nat)
    ensures 0 < count <= |steps| && code == steps[count - 1]
    ensures code != SQLITE_SCHEMA && code != SQLITE_ROW
    ensures forall j | 0 <= j < count - 1 :: steps[j] == SQLITE_SCHEMA
    ensures code == DbSpec.Settled(steps)
  {
    code := steps[0];
    count := 1;
    while code == SQLITE_SCHEMA
      invariant 0 < count <= |steps| && code == steps[count - 1]
      invariant forall j | 0 <= j < count - 1 :: steps[j] == SQLITE_SCHEMA
      invariant DbSpec.SettlesWithoutRow(steps[count - 1..])
      invariant DbSpec.Settled(steps[count - 1..]) == DbSpec.Settled(steps)
      decreases |steps| - count
    {
      assert steps[count - 1..][1..] == steps[count..];
      code := steps[count];
      count := count + 1;
    }
  }

  /**
   * The read loop of getListOfRoots over the selected `rows`, starting from
   * cleared lists: each SQLITE_ROW pushes the row's NAME onto `rootList` and
   * its TABLENAME onto `tableList`; SQLITE_DONE ends it with 0 and any other
   * code with -1.
   */
  method CollectRows(rootList: StringVector, tableList: StringVector, rows: seq<RootRow>,
                     fault: Option<DbSpec.SelectFault>) returns (r: int)
    requires rootList.items == [] && tableList.items == []
    modifies rootList, tableList
    ensures var L := DbSpec.RootListing(rows, fault);
      && r == L.ret
      && (rootList != tableList ==> rootList.items == L.roots && tableList.items == L.tables)
      && (rootList == tableList ==> rootList.items == DbSpec.Interleave(L.roots, L.tables))
  {
    var k := 0;
    var step := DbSpec.SelectStep(rows, fault, k);
    while step == SQLITE_ROW
      invariant 0 <= k <= |rows|
      invariant fault.Some? ==> fault.value.at >= k
      invariant step == DbSpec.SelectStep(rows, fault, k)
      invariant rootList != tableList ==> rootList.items == DbSpec.RootNames(rows[..k])
      invariant rootList != tableList ==> tableList.items == DbSpec.TableNames(rows[..k])
      invariant rootList == tableList ==>
        rootList.items == DbSpec.Interleave(DbSpec.RootNames(rows[..k]), DbSpec.TableNames(rows[..k]))
      decreases |rows| - k
    {
      rootList.PushBack(rows[k].name);
      tableList.PushBack(rows[k].tableName);
      DbSpec.ListingGrows(rows, k);
      k := k + 1;
      step := DbSpec.SelectStep(rows, fault, k);
    }
    r := if step == SQLITE_DONE then 0 else -1;
    DbSpec.ListingAtStop(rows, fault, k);
  }

  /** A caller-owned std::vector<std::string>. */
  class StringVector {
    var items: seq<string>

    constructor ()
      ensures items == []
    {
      items := [];
    }

    method Clear()
      modifies this
      ensures items == []
    {
      items := [];
    }

    method PushBack(s: string)
      modifies this
      ensures items == old(items) + [s]
    {
      items := items + [s];
    }
  }

  class DB {
    /** _dbPath */
    var dbPath: string
    /** _db: none, the unusable handle of a failed open, or a live connection */
    var handle: DbSpec.Handle
    /** _bOpened */
    var isOpen: bool
    /** The connection behind _db: what it sees and what the file holds. */
    var sql: Engine

    function Conn(): DbSpec.Conn
      reads this
    {
      DbSpec.Conn(dbPath, handle, isOpen, sql)
    }

    /** DB(dbpath): no handle, not opened; `file` is what the database file holds. */
    constructor (dbpath: string, file: Store)
      ensures Conn() == DbSpec.Conn(dbpath, DbSpec.NoHandle, false, Fresh(file))
    {
      dbPath := dbpath;
      handle := DbSpec.NoHandle;
      isOpen := false;
      sql := Fresh(file);
    }

    /** DB() with the default argument DB_PATH. */
    constructor Default(file: Store)
      ensures Conn() == DbSpec.Conn(DbSpec.DB_PATH, DbSpec.NoHandle, false, Fresh(file))
    {
      dbPath := DbSpec.DB_PATH;
      handle := DbSpec.NoHandle;
      isOpen := false;
      sql := Fresh(file);
    }

    /** ~DB: clears the flag and closes a held handle; the close result is only logged. */
    method Dispose(closeCode: ResultCode)
      modifies this
      ensures Conn() == DbSpec.Dispose(old(Conn()), closeCode)
    {
      isOpen := false;
      if handle == DbSpec.Live {
        if closeCode == SQLITE_OK {
          sql := sql.Disconnect();
        }
      }
    }

    method SetDBPath(dbpath: string)
      modifies this
      ensures Conn() == old(Conn()).(path := dbpath)
    {
      dbPath := dbpath;
    }

    /** openDB: `file` is what the database file at _dbPath holds. */
    method OpenDB(file: Store, openCode: ResultCode, handleOnFailure: bool) returns (r: int)
      modifies this
      ensures DbSpec.Reply(Conn(), r) == DbSpec.OpenDB(old(Conn()), file, openCode, handleOnFailure)
    {
      if dbPath == [] {
        return -1;
      }
      var ret := openCode;
      // _db now names a new connection to the file at the path, whether or not the open succeeded
      sql := Fresh(file);
      if ret != SQLITE_OK {
        handle := if handleOnFailure then DbSpec.Unusable else DbSpec.NoHandle;
        return -1;
      }
      handle := DbSpec.Live;
      isOpen := true;
      return 0;
    }

    method CloseDB(closeCode: ResultCode) returns (r: int)
      modifies this
      ensures DbSpec.Reply(Conn(), r) == DbSpec.CloseDB(old(Conn()), closeCode)
    {
      isOpen := false;
      var ret := if handle == DbSpec.Live then closeCode else SQLITE_OK;
      if ret == SQLITE_OK {
        if handle == DbSpec.Live {
          sql := sql.Disconnect();
        }
        handle := DbSpec.NoHandle;
      }
      return ret;
    }

    method CheckDB(execCode: ResultCode) returns (r: int)
      ensures r == DbSpec.CheckDB(Conn(), execCode)
      ensures !isOpen ==> r == -1
      ensures isOpen && handle == DbSpec.Live ==> r == execCode
    {
      if !isOpen {
        return -1;
      }
      if handle != DbSpec.Live {
        return SQLITE_MISUSE;
      }
      return execCode;
    }

    method CreateTables(execCode: ResultCode) returns (r: int)
      modifies this
      ensures DbSpec.Reply(Conn(), r) == DbSpec.CreateTables(old(Conn()), execCode)
    {
      if !isOpen {
        return -1;
      }
      if handle != DbSpec.Live {
        return -(SQLITE_MISUSE as int);
      }
      var res := sql.ExecCreateTables(execCode);
      sql := res.0;
      var ret := res.1;
      if ret != SQLITE_OK {
        return -(ret as int);
      }
      return ret;
    }

    method BeginTransaction() returns (r: int)
      modifies this
      ensures DbSpec.Reply(Conn(), r) == DbSpec.BeginTransaction(old(Conn()))
    {
      if handle != DbSpec.Live {
        return SQLITE_MISUSE;
      }
      var res := sql.Begin();
      sql := res.0;
      r := res.1;
    }

    method EndTransaction() returns (r: int)
      modifies this
      ensures DbSpec.Reply(Conn(), r) == DbSpec.EndTransaction(old(Conn()))
    {
      if handle != DbSpec.Live {
        return SQLITE_MISUSE;
      }
      var res := sql.End();
      sql := res.0;
      r := res.1;
    }

    /** finalizeSTMT takes the statement by value: the caller's handle is never changed. */
    method FinalizeStmt(stmt: Option<Stmt>, finalizeCode: ResultCode) returns (r: int)
      modifies this
      ensures DbSpec.Reply(Conn(), r) == DbSpec.FinalizeStmt(old(Conn()), stmt, finalizeCode)
    {
      r := 0;
      if stmt.Some? {
        sql := sql.Finalize(stmt.value);
        r := finalizeCode;
      }
    }

    method CreateRoot(rootName: string, tableName: string, o: DbSpec.CreateRootOutcomes) returns (r: int)
      modifies this
      ensures DbSpec.Reply(Conn(), r) == DbSpec.CreateRoot(old(Conn()), rootName, tableName, o)
    {
      var p := DbSpec.PrepareOn(Conn(), RegistryInsert, o.prepareInsert);
      sql := p.engine;
      var ret := p.code;
      if ret != SQLITE_OK {
        return ret;
      }
      ret := o.bindName;
      ret := o.bindTable;
      if ret != SQLITE_OK {
        return ret;
      }
      {
        var trans := new Transactor(this, p.stmt);
        var tries;
        // a failed NAME bind left NAME NULL: the engine reports the NOT NULL violation
        ret, tries := StepWrite(DbSpec.RegistryInsertSteps(o));
        if ret == SQLITE_DONE {
          sql := sql.(store := sql.store.InsertRoot(CText(rootName), CText(tableName)));
          ret := SQLITE_OK;
        }
        trans.Release();
      }
      p := DbSpec.PrepareOn(Conn(), PersonTableCreate(CText(tableName)), o.prepareCreate);
      sql := p.engine;
      ret := p.code;
      if ret != SQLITE_OK {
        return ret;
      }
      var trans := new Transactor(this, p.stmt);
      var tries;
      ret, tries := StepWrite(o.createSteps);
      if ret == SQLITE_DONE {
        sql := sql.(store := sql.store.CreatePersonTable(CText(tableName)));
        ret := SQLITE_OK;
      }
      trans.Release();
      return ret;
    }

    method AddPerson(a: DbSpec.PersonArgs, o: DbSpec.AddPersonOutcomes) returns (r: int)
      modifies this
      ensures DbSpec.Reply(Conn(), r) == DbSpec.AddPerson(old(Conn()), a, o)
    {
      if a.tableName == [] || a.name == [] {
        return -1;
      }
      var p := DbSpec.PrepareOn(Conn(), PersonInsert(a.tableName), o.prepare);
      sql := p.engine;
      var ret: nat := p.code;
      if ret != SQLITE_OK {
        return ret;
      }
      // ret |= the result of each of the thirteen binds, in placeholder order
      ret := DbSpec.OrInto(ret, o.binds);
      if ret != SQLITE_OK {
        return ret;
      }
      var trans := new Transactor(this, p.stmt);
      var tries;
      ret, tries := StepWrite(o.steps);
      if ret == SQLITE_DONE {
        sql := sql.(store := sql.store.InsertPerson(a.tableName, DbSpec.BoundValues(a)));
        ret := SQLITE_OK;
      }
      trans.Release();
      return ret;
    }

    /**
     * getListOfRoots: `matches` is the engine's verdict on `NAME LIKE format`,
     * and `fault` the step, if any, at which the query reports an error. The
     * same vector may be passed for both lists; it then holds the names and
     * table names interleaved.
     */
    method GetListOfRoots(rootList: StringVector, tableList: StringVector, matches: string -> bool,
                          prepareCode: ResultCode, fault: Option<DbSpec.SelectFault>) returns (r: int)
      modifies this, rootList, tableList
      ensures var spec := DbSpec.GetListOfRoots(old(Conn()), matches, prepareCode, fault);
        && Conn() == spec.conn && r == spec.ret
        && (rootList != tableList ==> rootList.items == spec.roots && tableList.items == spec.tables)
        && (rootList == tableList ==> rootList.items == DbSpec.Interleave(spec.roots, spec.tables))
    {
      tableList.Clear();
      rootList.Clear();
      var p := DbSpec.PrepareOn(Conn(), RegistrySelect, prepareCode);
      sql := p.engine;
      if p.code != SQLITE_OK {
        return -1;
      }
      var rows := Select(sql.store.registry, matches);
      var trans := new Transactor(this, p.stmt);
      r := CollectRows(rootList, tableList, rows, fault);
      trans.Release();
    }
  }

  /** dbTransactor: a guard that brackets one statement in one transaction. */
  class Transactor {
    const db: DB?
    const stmt: Option<Stmt>

    constructor (db: DB?, stmt: Option<Stmt>)
      modifies db
      ensures this.db == db && this.stmt == stmt
      ensures db != null ==> db.Conn() == DbSpec.BeginTransaction(old(db.Conn())).conn
    {
      this.db := db;
      this.stmt := stmt;
      new;
      if db != null {
        var _ := db.BeginTransaction();
      }
    }

    /** The destructor: finalize the statement, then end the transaction. */
    method Release()
      modifies db
      ensures db != null && stmt.Some? ==>
        db.Conn() == DbSpec.EndTransaction(DbSpec.FinalizeStmt(old(db.Conn()), stmt, SQLITE_OK).conn).conn
      ensures db != null && stmt.None? ==> db.Conn() == old(db.Conn())
    {
      if db != null && stmt.Some? {
        var _ := db.FinalizeStmt(stmt, SQLITE_OK);
        var _ := db.EndTransaction();
      }
    }
  }
}
