# FamilyTree database layer and Person record, in Dafny

This project models two parts of the FamilyTree program and proves properties of them:

- **The SQLite wrapper `DB` and its guard `dbTransactor`** (`Source/DB_src/db.cpp`, `Source/DB_src/db.h`).
  - The SQLite library is an abstract engine value (`SqliteEngine.Engine`), one connection to the database file. It holds:
    - what the file holds as committed (`committed`), and the connection's view of it (`store`), which adds the changes of its open transaction; each is a `Store`: whether `ROOTTABLE` exists, the registry rows, the person tables by name (compared without regard to ASCII case);
    - whether a transaction is open (a successful END commits the view; a closed or abandoned connection loses what it had not committed);
    - which prepared statements are still alive;
    - the ordered trace of prepare/BEGIN/finalize/END events.
  - Most of the engine's decisions are inputs, given as result codes: open, close, the createTables script's CREATE, the integrity check, prepare, bind and each step of a statement. The contents of the file at the path `openDB` opens are an input too.
  - What the schema or the transaction state decides is computed. A statement over a missing table does not compile. BEGIN fails inside an open transaction and END outside one; in particular the BEGIN that opens the createTables script is computed, not supplied.
  - Module `DbSpec` states each member function of `DB` as a pure function of the connection state. Each function returns the new state and the integer the C++ function returns. The lemmas about these functions state the promises below.
  - Module `Db` holds the classes `DB`, `Transactor` and `StringVector`. Their methods change fields step by step as the C++ code does:
    - the `do … while (ret == SQLITE_SCHEMA)` step loop;
    - the `while (1)` row loop of `getListOfRoots`, which pushes into caller-owned vectors.

    Each method is proved to compute exactly the matching `DbSpec` function.
- **The `Person` record** (`Source/person.cpp`, `Source/person.h`).
  - Module `Persons` holds the records in an arena, `PersonArena`. It maps an address to a record and owns the static counter `global_id`.
  - The arena keeps every record at the address equal to its id, so a parent or child link is the linked person's `get_id()`.
  - Constructors, `new_id`, the link setters, `addChild` and `import_data` are methods on the arena. `import_data` keeps the clear-then-append loop.
  - Module `PersonText` gives the text `save_pure` appends to its file as a pure function. It also has a reader for that text and proves that reading back a saved record yields its saved fields.

Behaviours of the code that are easy to miss:
- A failed `openDB` leaves `_bOpened` as it was (`Source/DB_src/db.cpp:113-123`). It does not clear it.
- `createTables` runs a script that opens a transaction and never commits it (`Source/DB_src/db.h:17-22`). The new `ROOTTABLE` reaches the file only when a later END commits; closing first rolls it back.
- A DB without a handle (never opened, or closed) still runs its statements. The library refuses each with `SQLITE_MISUSE` (21), which `createRoot`, `addPerson`, BEGIN and END return; `getListOfRoots` returns -1.
- A failed `openDB` may still hand back a handle. That handle is unusable: the library refuses every statement and exec on it with `SQLITE_MISUSE`, exactly as for a missing handle, and closing it succeeds.
- `checkDB` and `createTables` return -1 on a DB that is not opened. They reach the library without a usable handle only when the opened flag is set without one, after a failed re-open; `checkDB` then returns 21 and `createTables` -21.
- A failed `sqlite3_bind_text` of NAME in `createRoot` does not change its return value, but it leaves NAME NULL, so the NOT NULL constraint keeps the registry row out.
- SQLite compares table names without regard to ASCII case. A root registered with table `SMITH` takes persons added under `smith`, and a second root registered with table `Smith` shares that table.
- Every string reaches the library as a C string and ends at its first NUL: the bound texts, and the table name `createRoot` splices into its CREATE. `addPerson` splices the whole name into its INSERT, so a NUL in it cuts the statement short and the prepare fails.
- `getListOfRoots` may be given the same vector for both lists. That vector then holds each root's NAME followed by its TABLENAME.
- The default constructor never assigns `sex`.
- The default constructor's `birthDate.currentDate()` discards its result, so the birth date stays null.

## Model

| member | source | states |
|---|---|---|
| SqliteEngine.CText | Source/DB_src/db.cpp:180-181 | the text the library receives for a string passed with `c_str()` and length -1 is its longest prefix without NUL |
| DbSpec.Settled | Source/DB_src/db.cpp:190-193 | the write loop stops at the first code that is not SQLITE_SCHEMA; that code is among those reported and is never SQLITE_ROW or SQLITE_OK |
| Db.StepWrite | Source/DB_src/db.cpp:190-193 | the loop re-steps exactly while the code is SQLITE_SCHEMA: every earlier code was SQLITE_SCHEMA, the returned one is not, and it equals `Settled` |
| DbSpec.BitOr | Source/DB_src/db.cpp:260-272 | the bitwise OR of two codes is 0 exactly when both are 0 |
| DbSpec.OrIntoZero | Source/DB_src/db.cpp:260-275 | `ret |= bind(...)` over the thirteen binds leaves 0 exactly when the prepare result and every bind result are 0 |
| DbSpec.AsInt | Source/DB_src/db.cpp:260-271 | a `uint32_t` passed to `sqlite3_bind_int` becomes a C int in [-2^31, 2^31) congruent to it modulo 2^32 |
| DbSpec.GuardBeginsExactlyWithDb | Source/DB_src/db.h:113-117 | constructing a guard issues BEGIN exactly when its DB pointer is non-null, and changes neither the data nor the live statements |
| DbSpec.GuardReleaseFinalizesThenEnds | Source/DB_src/db.h:118-125 | destroying a guard finalizes the statement and then ends the transaction, in that order, only when both pointers are non-null; otherwise nothing happens |
| DbSpec.NullStatementGuardLeavesTransactionOpen | Source/DB_src/db.h:113-125 | a guard over a null statement with a non-null DB begins a transaction its destructor never ends |
| DbSpec.RunGuardedEffect | Source/DB_src/db.h:113-125 | a statement run under a guard adds BEGIN, finalize, END to the trace, releases the statement, closes the transaction, changes the connection's view only when the loop ended in SQLITE_DONE, and the END commits that view to the file |
| DbSpec.OpenDBOutcomes | Source/DB_src/db.cpp:97-124 | an empty path returns -1 and changes nothing; a successful open sets a live handle and the opened flag and returns 0; a failed open returns -1, leaves the opened flag as it was and leaves no handle or an unusable one; any open attempt starts a new connection that sees what the file at the path holds, with no transaction open |
| DbSpec.FailedReopenKeepsOpenedFlag | Source/DB_src/db.cpp:113-123 | for every opened DB with a path, a failed open returns -1 but leaves the flag claiming an open database whose handle is missing or unusable, so the DB is no longer consistent |
| DbSpec.FailedOpenHandleIsUnusable | Source/DB_src/db.cpp:107-142 | the handle a failed open hands back gets SQLITE_MISUSE from createRoot, addPerson, BEGIN and END, -1 with empty lists from getListOfRoots and, when the DB is opened, SQLITE_MISUSE from checkDB and -21 from createTables, changing nothing; closeDB on it returns 0 and drops it |
| DbSpec.CloseDBAlwaysClearsOpened | Source/DB_src/db.cpp:126-142 | closeDB always clears the opened flag, returns the close result (SQLITE_OK without a live handle), keeps the handle only when the close failed; a successful close of a live handle rolls the connection's view back to the committed file, and the file itself is unchanged |
| DbSpec.ClosedConnectionIsNotTouched | Source/DB_src/db.cpp:54-57 | createTables on a DB that is not opened returns -1 and changes nothing |
| DbSpec.CreateTablesOutcome | Source/DB_src/db.cpp:54-73 | with a handle, createTables returns 0 exactly when the script's BEGIN and CREATE succeed, and ROOTTABLE then exists in the connection's view; otherwise it returns the negated code and the view is unchanged; the script's transaction is left open and nothing is committed |
| DbSpec.CreatedTablesRolledBackOnClose | Source/DB_src/db.cpp:54-73 | ROOTTABLE created by createTables on a file without it is gone again after a successful closeDB, because the script's transaction was never committed |
| DbSpec.FinalizeNullIsNoop | Source/DB_src/db.h:88-98 | finalizeSTMT on a null statement returns 0 and changes nothing |
| DbSpec.EndTransactionCommits | Source/DB_src/db.cpp:87-90 | with a handle, END succeeds exactly inside a transaction, always leaves none open, and then makes the file hold the connection's view |
| DbSpec.CreateRootIgnoresNameBind | Source/DB_src/db.cpp:179-186 | the result of binding NAME never changes the return value, because the TABLENAME bind overwrites it; a failed NAME bind leaves the registry unchanged, because NAME is NOT NULL |
| DbSpec.CreateRootResultIgnoresRegistryInsert | Source/DB_src/db.cpp:187-228 | the return value does not depend on the registry insert's step results |
| DbSpec.CreateRootGuardsInSequence | Source/DB_src/db.cpp:187-216 | with a handle, on the guarded path the trace is prepare, BEGIN, finalize, END for the insert, then the same for the CREATE: the first guard ends before the second statement exists |
| DbSpec.CreateRootStoreEffect | Source/DB_src/db.cpp:162-228 | with a live handle: the registry row, both names cut at their first NUL, is added when the NAME bind succeeded and the insert ends in SQLITE_DONE; the person table is created (if no table of that name in any ASCII case exists) when the CREATE ends in SQLITE_DONE; the result is 0 exactly in the latter case; the file then holds everything the connection sees |
| DbSpec.CreateRootStatementLifetimes | Source/DB_src/db.cpp:171-199 | every statement is released except the one left live when the TABLENAME bind fails |
| DbSpec.AddPersonRejectsEmptyInput | Source/DB_src/db.cpp:238-242 | an empty table name or name returns -1 before anything is prepared, with the connection unchanged |
| DbSpec.AddPersonAppendsOneRow | Source/DB_src/db.cpp:238-298 | addPerson returns 0 exactly when the input is non-empty, the DB has a handle, the table name holds no NUL and a table of that name in any ASCII case exists, the prepare and all thirteen binds succeed and the loop ends in SQLITE_DONE; then exactly one row holding the bound values (texts cut at their first NUL) is appended to that table, else the connection's view is unchanged |
| DbSpec.AddPersonAnyBindFailureFails | Source/DB_src/db.cpp:260-279 | a failure of any single bind fails the call and leaves the connection's view unchanged |
| DbSpec.ListRootsPrepareFailure | Source/DB_src/db.cpp:309-320 | when the query does not prepare (no handle, no ROOTTABLE, or a failing prepare), both lists are left empty, -1 is returned and the connection is unchanged |
| DbSpec.ListRootsInLockstep | Source/DB_src/db.cpp:322-352 | with a handle, the lists have equal length and hold NAME and TABLENAME of the selected rows in row order; 0 is returned exactly when every selected row was reported, else -1 with the rows so far kept |
| DbSpec.DefaultFilterSelectsAll | Source/DB_src/db.h:86 | the default filter `'%'` selects every registry row |
| DbSpec.ListRootsDefaultFilter | Source/DB_src/db.cpp:300-353 | with a handle, ROOTTABLE, the default filter and no step failure, getListOfRoots returns 0 with every registry NAME and TABLENAME in row order |
| DbSpec.InterleaveEntries | Source/DB_src/db.cpp:334-336 | in the list a shared vector ends up holding, entry 2i is the i-th NAME and entry 2i+1 the i-th TABLENAME |
| DbSpec.NoHandleIsMisuse | Source/DB_src/db.cpp:171-177 | without a live handle: createRoot returns 21, addPerson on non-empty input returns 21, getListOfRoots returns -1 with both lists empty, BEGIN and END return 21, an opened DB's createTables returns -21 and checkDB 21; nothing changes |
| DbSpec.RegisteringTwiceAddsTwoRows | Source/DB_src/db.h:17-22 | NAME and TABLENAME are not unique: the same root registered twice gives two rows with consecutive ROOTIDs |
| DbSpec.RecreatingTableKeepsRows | Source/DB_src/db.h:24 | CREATE TABLE IF NOT EXISTS on an existing table, named in any ASCII case, leaves it and its rows intact; otherwise the person table exists afterwards, unless its name is ROOTTABLE's |
| DbSpec.TableNamesIgnoreCase | Source/DB_src/db.h:24 | two names equal up to ASCII case name one table: creating under the second keeps the first's table as it is, and inserts under either append to it |
| DbSpec.FoldExamples | Source/DB_src/db.h:24 | `Smith`, `SMITH` and `smith` name the same table, `Smith` and `Smyth` do not |
| DbSpec.RegistryNameIsTaken | Source/DB_src/db.h:17-24 | once ROOTTABLE exists, a person table requested as `roottable` in any case is not created, and an insert of a person under that name does not compile |
| DbSpec.AddPersonFindsTableInAnyCase | Source/DB_src/db.cpp:162-298 | with every outcome reported as success, createRoot("Smith", "SMITH") returns 0 and a following addPerson into "smith" returns 0 |
| DbSpec.SamePersonStoredTwice | Source/DB_src/db.h:24-39 | ID is not unique: the same values stored twice give two rows that differ only in their consecutive ENTRYIDs |
| DbSpec.InsertPersonKeepsWellFormed | Source/DB_src/db.h:25 | after an insert, the ENTRYIDs of every table are still 1, 2, … in row order |
| DbSpec.LifecyclePreservesConsistency | Source/DB_src/db.cpp:97-142 | open (from a closed DB, of a well-formed file), close, destruction, createTables, BEGIN, END and finalize keep "opened implies a live handle" and the engine's invariants |
| DbSpec.CreateRootPreservesConsistency | Source/DB_src/db.cpp:162-228 | createRoot keeps the connection consistent |
| DbSpec.AddPersonPreservesConsistency | Source/DB_src/db.cpp:230-298 | addPerson keeps the connection consistent |
| DbSpec.GetListOfRootsPreservesConsistency | Source/DB_src/db.cpp:300-353 | getListOfRoots keeps the connection consistent |
| Db.DB.constructor | Source/DB_src/db.cpp:17-23 | a new DB holds the given path, no handle, and is not opened |
| Db.DB.Default | Source/DB_src/db.h:69 | the default path is `family.db` |
| Db.DB.Dispose | Source/DB_src/db.cpp:25-42 | the destructor clears the flag and closes a held handle; it computes `DbSpec.Dispose` |
| Db.DB.SetDBPath | Source/DB_src/db.cpp:92-95 | only the path changes |
| Db.DB.OpenDB | Source/DB_src/db.cpp:97-124 | computes `DbSpec.OpenDB`: a non-empty path always replaces the connection with one to the file at that path |
| Db.DB.CloseDB | Source/DB_src/db.cpp:126-142 | computes `DbSpec.CloseDB` |
| Db.DB.CheckDB | Source/DB_src/db.cpp:144-160 | returns -1 when not opened, SQLITE_MISUSE when opened without a live handle, else the raw result of the integrity check, and changes nothing |
| Db.DB.CreateTables | Source/DB_src/db.cpp:54-73 | computes `DbSpec.CreateTables` |
| Db.DB.BeginTransaction | Source/DB_src/db.cpp:82-85 | computes `DbSpec.BeginTransaction` |
| Db.DB.EndTransaction | Source/DB_src/db.cpp:87-90 | computes `DbSpec.EndTransaction` |
| Db.DB.FinalizeStmt | Source/DB_src/db.h:88-98 | computes `DbSpec.FinalizeStmt`; the caller's statement is passed by value and never changed |
| Db.DB.CreateRoot | Source/DB_src/db.cpp:162-228 | the two-guard method computes `DbSpec.CreateRoot` |
| Db.DB.AddPerson | Source/DB_src/db.cpp:230-298 | computes `DbSpec.AddPerson` |
| Db.DB.GetListOfRoots | Source/DB_src/db.cpp:300-353 | the clear-then-push method leaves the connection and the result equal to `DbSpec.GetListOfRoots`, and two distinct vectors equal to its two lists, or one shared vector equal to the two lists interleaved |
| Db.CollectRows | Source/DB_src/db.cpp:324-350 | the row loop, started on cleared vectors, leaves the result and the vectors as `DbSpec.RootListing` gives, interleaved in one vector when both are the same |
| Db.StringVector.Clear | Source/DB_src/db.cpp:309-310 | the vector becomes empty |
| Db.StringVector.PushBack | Source/DB_src/db.cpp:334-336 | the value is appended at the end |
| Db.Transactor.constructor | Source/DB_src/db.h:113-117 | the guard keeps both pointers and, when the DB is non-null, leaves it as `DbSpec.BeginTransaction` gives (SQLITE_MISUSE and no change without a live handle) |
| Db.Transactor.Release | Source/DB_src/db.h:118-125 | with both pointers non-null, the destructor leaves the DB as finalizing the statement and then `DbSpec.EndTransaction` give; otherwise it changes nothing |
| Persons.PersonArena.constructor | Source/person.cpp:3 | the static counter starts at 0 and no Person exists |
| Persons.PersonArena.NewId | Source/person.cpp:121-124 | returns the counter and increments it by one |
| Persons.PersonArena.NewDefault | Source/person.cpp:5-18 | draws a fresh id; the new record is alive, with null dates, the placeholder texts, no parents, no children, not set, at the origin |
| Persons.PersonArena.NewCopy | Source/person.cpp:20-35 | draws a fresh id; every attribute and link of the source is copied except the id and the coordinates; `set` becomes true |
| Persons.PersonArena.NewFull | Source/person.cpp:42-57 | draws a fresh id; the given attributes, no links, an empty photo, set |
| Persons.PersonArena.NewWithBirth | Source/person.cpp:59-72 | draws a fresh id; alive, a null death date, no links, the given sex, set |
| Persons.PersonArena.GetId | Source/person.cpp:126-129 | in a valid arena a person's id is its address and below the counter |
| Persons.PersonArena.SetFather | Source/person.cpp:74-77 | only the father link changes |
| Persons.PersonArena.SetMother | Source/person.cpp:79-82 | only the mother link changes |
| Persons.PersonArena.AddChild | Source/person.cpp:116-119 | the child is appended (repeats allowed): the count grows by one, the last child is the new one, earlier children and all other fields are unchanged |
| Persons.PersonArena.ImportData | Source/person.cpp:161-179 | the person takes every attribute, both links and the children in order from the profile, keeps its id and coordinates, becomes set, and the profile is deleted |
| PersonText.IntTextRoundTrip | Source/person.cpp:213 | an integer written in decimal reads back as itself |
| PersonText.DateRoundTrip | Source/person.cpp:215-216 | a date written as `dd.MM.yyyy` reads back as itself, and an invalid or null date, written as the empty text, reads back as null |
| PersonText.CoordRoundTrip | Source/person.cpp:213 | the coordinates line reads back as the two coordinates |
| PersonText.StatusRoundTrip | Source/person.cpp:215-216 | the alive flag and both dates read back from their line |
| PersonText.ParentsRoundTrip | Source/person.cpp:218-219 | the mother id then the father id read back from their line |
| PersonText.ChildrenRoundTrip | Source/person.cpp:220-223 | the child count followed by each id and a space reads back as the ids in order |
| PersonText.HeadNoBreaks | Source/person.cpp:213-225 | none of the ten head lines holds a line break |
| PersonText.HeadRoundTrip | Source/person.cpp:213-225 | the ten head lines read back as the person's id, coordinates, name, status, sex, parent ids, child ids and birth place |
| PersonText.SaveLoadRoundTrip | Source/person.cpp:212-227 | the whole record (head, info marker, info, closing marker) reads back as the person's saved fields |
| PersonText.SavePure | Source/person.cpp:182-227 | when the file cannot be opened it is left unchanged, else the record is appended after the old contents |
| PersonText.SavePureAppendsRecord | Source/person.cpp:182-227 | what save_pure appends to an open file reads back as the person's saved fields |

## Left out

- The SQLite library itself: SQL text, `LIKE` matching (which also ignores ASCII case, but is a supplied predicate here), `pragma integrity_check`, file creation and locking, error messages. It is a foreign library. Its outcomes are inputs, and the query's `format` filter is a caller-supplied predicate on NAME.
- A connection that `openDB` replaces is abandoned, not closed. The real library would keep its open transaction and its locks; the model drops them, and the new connection sees what the file at the path holds.
- Db.DB.OpenDB: the contents of the file at the path are a parameter. The model keeps no table of files by path, so that re-opening the path just closed finds what was committed there is up to the caller.
- Writes outside a transaction (autocommit) do not occur in the modelled code: every write runs under a guard's BEGIN, or inside the transaction `createTables` left open. The engine therefore applies writes to the connection's view and commits only on END.
- `DB::dbCallback`: unused by the modelled operations, and it only parses an integer with `atoi`.
- `DB::databaseError` and every `writeDebugLog`/`writeErrorLog` call: they only write to the log file (I/O), so they are no-ops.
- Buffer handling in `createRoot`: the `snprintf` into a 1224-byte buffer is not modelled, so very long table names are not truncated.
- Whether SQL text parses is the library's decision. Where the statement's table exists, it is supplied as the prepare outcome.
- DbSpec.AddPersonAppendsOneRow: `addPerson` splices its table name into the INSERT without quotes. The model looks the name up exactly as spelled, up to ASCII case. So a spelling that SQL resolves to an existing table is treated as a missing table, and the call fails with SQLITE_ERROR. Examples: surrounding blanks (`smith `), quotes (`` `smith` ``, `"smith"`, `[smith]`), a schema prefix (`main.smith`), or comments.
- BEGIN and END results are computed from whether a transaction is open, not supplied. A BEGIN or COMMIT that fails for another reason cannot occur in the model. That includes a COMMIT failing with SQLITE_BUSY or SQLITE_FULL and leaving the transaction open.
- `DbSpec.WriteSteps` makes three assumptions about the step codes of a write statement. A run that breaks one of them is not modelled:
  - `assert(ret != SQLITE_ROW)` holds, so no run aborts;
  - some step eventually reports a code other than SQLITE_SCHEMA, so the loop ends;
  - no step reports SQLITE_OK, which `sqlite3_step` never returns.
- DbSpec.MatchAny: that `NAME LIKE '%'` accepts every name is assumed, because `LIKE` matching is left out. `DbSpec.DefaultFilterSelectsAll` proves only that a filter accepting every name keeps every row.
- `main.cpp`'s call of an `addPerson(tableName, Person*)` overload: db.h does not declare it, so only the declared 14-argument form is modelled.
- Qt object machinery (`QObject`, slots), and object lifetime beyond `import_data`'s delete.
- Persons.PersonArena.ImportData: importing a person from itself deletes the object it then writes to, so the profile must be another person.
- Persons.PersonArena.ImportData: links held elsewhere to the deleted profile become dangling, and saving a person with a dangling link is not modelled.
- Persons.PersonArena.NewId: `global_id` is a C++ `int`, so its overflow after 2^31 constructions is not modelled.
- Persons.PersonArena.NewDefault: the uninitialised `sex` is the parameter `indeterminateSex`.
- Persons.PersonArena.NewFull: the `photopath` argument is ignored, as in the source, so the photo is empty.
- Photo data is copied and imported but never written by `save_pure`. The photo dump is commented out in the source.
- QDate: only the null/valid distinction, the day/month/year triple and `toString("dd.MM.yyyy")` are modelled.
  - Years beyond four digits are written in full; a negative year is a minus sign followed by the zero-padded digits.
  - `currentDate()` is a clock read whose result the source discards.
- `m_coord` is a floating-point `QPointF`. Each coordinate is kept as the text `QTextStream` writes for it, and the default position is "0 0".
- `save_pure`'s file handling (`QFile`, `QTextStream` encoding, the `QMessageBox` warning) is reduced to "the file opens or it does not" and the appended text.
- PersonText.SaveLoadRoundTrip: holds only for records whose name and birth place hold no line break and whose coordinates hold neither a space nor a line break. The format cannot delimit other texts, and the source has no reader.
- PersonText.SavePureAppendsRecord: same restriction as SaveLoadRoundTrip.
- PersonText.HeadRoundTrip: same restriction as SaveLoadRoundTrip.
- PersonText.CoordRoundTrip: requires coordinates without spaces, for the same reason.
- `person.h` declares `photoPath`, `getPhotoPath` and `checkAlive`. `person.cpp` uses `photoData`, `getPhotoData` and `isAlive` instead, and the model follows `person.cpp`.
- Getters that only return a field (`getName`, `getBDate`, `getDDate`, `getInfo`, `getBirthPlace`, `mom`, `dad`, `getSex`, `isAlive`, `getPhotoData`) are field reads of the record.
- `children_num` and `child` are the functions `ChildrenNum` and `Child`. Their properties are stated by `AddChild`'s contract.
