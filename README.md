# WScore.DbGateway core, modelled in Dafny

This project models the logic that WScore.DbGateway wraps around its query builder:

- **Naming rules.** A DAO's table is the base name of its class, and its key is `<table>_id`. A gateway's table keeps the namespace backslash. A join table is named by the two table names, sorted and joined with `_`.
- **Time stamps.** The date-time columns are stamped from one cached instant.
- **The DAOs' statements.** `DaoArray`, `DaoEntity`, `Dao` and `Gateway` hand insert, update, select and delete statements to the query builder.
- **Entity tracking.** `DaoEntity` keeps append-only lists of the entity objects it has retrieved and deleted.
- **Write-once entities.** `EntityAccess` stores each property once.
- **Many-to-many relations.** `HasJoin` builds its relation descriptor and links a source entity to its targets through a join table.

The modules follow the source files:

| module | file | contents |
|---|---|---|
| `Php` | `php.dfy` | PHP scalars, exceptions, and ordered string-keyed arrays (`Row`) |
| `Naming` | `naming.dfy` | class base names, table and key defaults, join-table names |
| `Query` | `query.dfy` | the statements a DAO executes |
| `Schema` | `schema.dfy` | DAO configuration, the shared clock (`static $now`), stamping, column lists |
| `Dispatch` | `dispatch.dfy` | the `__call` forwarding of both DAOs |
| `Relations` | `relations.dfy` | `HasJoin` together with the state of `RelationAbstract` |
| `DaoArrays` | `dao_array.dfy` | `DaoArray` |
| `DaoEntities` | `dao_entity.dfy` | `DaoEntity` and the entity objects it tracks |
| `Entities` | `entity_access.dfy` | `EntityAccess` |
| `DbGateway` | `gateway.dfy` | `Gateway` |
| `Daos` | `dao.dfy` | `Dao` |

The query builder and the database are not modelled. Each DAO or gateway object instead has two fields:

- `where`: the conditions on its current builder.
- `issued`: the log of the statements it has executed.

Anything the database decides is a parameter of the operation: a generated id, the rows a select returns, the failing insert in `relate`. So is the clock's reading, given as the three strings `getCurrentTime()->format(...)` would produce.

PHP's `static $now` is one `Clock` object. It is shared by the DAOs that are given the same clock.

`Dao::getColumns` is identical to `DaoArray::getColumns`; `Schema.Columns` models both. `DaoArray`'s `getTable()` and `getKeyName()` are its `table` and `primaryKey` constants.

`DaoEntity::isRetrieved` and `isDeleted` are membership tests on the two tracking lists, and change nothing.

## Model

| member | source | states |
|---|---|---|
| Php.Set | src/WScore/DbGateway/Gateway.php:175 | the key then holds the value; every other key keeps its presence and value; an existing key keeps its place and a new one goes last; a well-formed array stays well formed |
| Php.Unset | src/WScore/DbGateway/Gateway.php:172 | the key is gone; every other key keeps its presence, value and relative order; a well-formed array stays well formed |
| Php.ReplaceMovesKeyLast | src/WScore/DbGateway/Gateway.php:172-175 | unset then write of a key: the key moves last and holds the new value; every other key keeps its place and value |
| Php.UnsetAfterReplace | src/WScore/DbGateway/Gateway.php:170-177 | removing the written-back key again gives exactly the array without the key |
| Naming.Basename | src/DaoArray.php:83-87 | the result has no backslash, is a suffix of the class name, follows its last backslash, and is the whole name when there is none |
| Naming.BasenameOfQualified | src/DaoArray.php:82-88 | `ns\Base` gives `Base` |
| Naming.TableName | src/DaoArray.php:82-88 | a truthy preset is kept; otherwise the backslash-free suffix of the class name that follows its last backslash, or the whole name when it has none |
| Naming.KeyName | src/DaoArray.php:89-91 | a truthy preset is kept; otherwise the table name followed by `_id` |
| Naming.JoinName | src/Dao/Relation/HasJoin.php:81-83 | one table name, `_`, the other, in one of the two orders |
| Naming.LexLeTotal | src/Dao/Relation/HasJoin.php:82 | the string order `sort` applies is total |
| Naming.LexLeAntisymmetric | src/Dao/Relation/HasJoin.php:82 | two strings ordered both ways are equal |
| Naming.JoinNameSorted | src/Dao/Relation/HasJoin.php:81-83 | the join table is the smaller table name, `_`, then the larger one |
| Naming.JoinNameSymmetric | src/Dao/Relation/HasJoin.php:80-84 | the join table does not depend on which side is the source |
| Naming.AuthorRoleJoin | src/Dao/Relation/HasJoin.php:80-84 | `author` and `role` give `author_role` in either order |
| Naming.AuthorKey | tests/relationTests/BlogModels/AuthorDao.php:10 | table `author` without a preset key gives the key `author_id` |
| Schema.Clock.Current | src/DaoArray.php:144-149 | the first reading is cached and every later call returns it |
| Schema.Stamp | src/DaoArray.php:262-273 | every configured (truthy) `updated_*` column is written, the `created_*` ones only on insert; no other column changes; existing keys keep their order |
| Schema.StampWrites | src/DaoArray.php:265-272 | three `updated_*` writes, then on insert three `created_*` writes, each with the date-time, date or time rendering |
| Schema.StampValues | src/DaoArray.php:262-273 | every configured stamp column holds the rendering of the one instant its write gives (date-time, date or time), unless a later write reuses its name |
| Schema.StampedDateTimes | src/DaoArray.php:264-272 | `updated_at` holds the instant in the DAO's format, and on insert `created_at` holds the same value |
| Schema.UpdateKeepsCreated | src/DaoArray.php:268 | an update leaves every `created_*` column that is not also an `updated_*` column as it was |
| Schema.Columns | src/DaoArray.php:282-286 | a non-empty configured list is returned verbatim, duplicates included; otherwise the data's keys in order, each once |
| Dispatch.ArrayCall | src/DaoArray.php:123-137 | throws exactly when neither a scope nor a builder method exists; a scope returns the DAO; a plain value is returned only as the builder's own result |
| Dispatch.DaoCall | src/Dao.php:133-144 | throws exactly when neither a scope nor a builder method exists; never returns a builder value |
| Dispatch.ScopeLookupIgnoresUcfirst | src/DaoArray.php:125 | since PHP method names ignore case, `scope` + `ucfirst(name)` finds the same method as `scope` + name |
| Dispatch.ArrayCallOutcomes | src/DaoArray.php:123-137 | a call throws "no such method: name" exactly when no scope and no builder method answers; a scope wins over the builder; a scalar builder result is returned only when no scope exists |
| Dispatch.DaoCallChains | src/Dao.php:133-144 | `Dao` fails on the same calls as `DaoArray`, never returns a builder value, and agrees with `DaoArray` whenever the builder returns an object |
| Relations.Resolve | src/Dao/Relation/HasJoin.php:76-100 | entries already set are kept; afterwards all six are set; `target` is untouched; join table, keys and join columns get their defaults, the join columns from the resolved keys |
| Relations.ResolveIdempotent | src/Dao/Relation/HasJoin.php:76-100 | resolving a resolved descriptor changes nothing |
| Relations.JoinTableIndependentOfSide | src/Dao/Relation/HasJoin.php:80-84 | a fresh relation from A to B and one from B to A resolve the same join table |
| Relations.AuthorRoleDescriptor | src/Dao/Relation/HasJoin.php:79-99 | an author-to-role relation resolves to `author_role`, `author_id` and `role_id` |
| Relations.JoinRow | src/Dao/Relation/HasJoin.php:111-114 | the target id sits under the join target column, and the source id under the join source column when the two differ |
| Relations.JoinInsert | src/Dao/Relation/HasJoin.php:111-114 | an insert into the resolved join table whose row holds the target's key value under the join target column and the source's key value under the join source column |
| Relations.JoinRowColumns | src/Dao/Relation/HasJoin.php:111-114 | the join row holds the source id and the target id under the two join columns; when the names coincide only the target id remains |
| Relations.JoinInserts | src/Dao/Relation/HasJoin.php:110-115 | one insert per target |
| Relations.JoinInsertsAt | src/Dao/Relation/HasJoin.php:110-115 | the i-th insert is the i-th target's row, so the inserts keep target order |
| Relations.AuthorRolesScenario | src/Dao/Relation/HasJoin.php:107-115 | author 7 with roles 1, 2, 3 gives exactly three `author_role` rows, in that order |
| Relations.ListGet | src/Dao/Relation/HasJoin.php:108 | looking a column name up on the list of targets finds null |
| Relations.ForeachValues | src/Dao/Relation/HasJoin.php:110 | `foreach` over a scalar visits nothing; over an array it visits one value per key |
| Relations.RelateAsWritten | src/Dao/Relation/HasJoin.php:107-116 | as written, relate always sets the flag and returns true |
| Relations.RelateAsWrittenLosesLinks | src/Dao/Relation/HasJoin.php:107-116 | as written, with a non-empty target list and a column-name target key, relate inserts no row (fewer than the targets) and still links and returns true |
| Relations.AuthorRolesAsWritten | src/Dao/Relation/HasJoin.php:107-116 | as written, the author/role relation with three targets inserts nothing and links |
| Relations.HasJoin.constructor | src/Dao/Relation/HasJoin.php:16-22 | the descriptor is the target alone with every default resolved; the relation is not linked and nothing was inserted |
| Relations.HasJoin.SetupHasJoin | src/Dao/Relation/HasJoin.php:76-100 | the six in-place defaults give exactly `Resolve` of the old descriptor |
| Relations.HasJoin.TargetKey | src/Dao/Relation/HasJoin.php:29-39 | overwrites exactly `targetKey` and `joinTargetKey` (possibly with null) and returns the same object |
| Relations.HasJoin.JoinBy | src/Dao/Relation/HasJoin.php:45-54 | overwrites exactly `joinBy` and returns the same object |
| Relations.HasJoin.SourceKey | src/Dao/Relation/HasJoin.php:61-71 | overwrites exactly `sourceKey` and `joinSourceKey` (possibly with null) and returns the same object |
| Relations.HasJoin.SetSource | src/Dao/Relation/RelationAbstract.php:37-40 | replaces the source and nothing else |
| Relations.HasJoin.SetTarget | src/Dao/Relation/RelationAbstract.php:45-48 | replaces the targets and nothing else |
| Relations.HasJoin.IsLinked | src/Dao/Relation/RelationAbstract.php:53-55 | reads the flag, changing nothing |
| Relations.HasJoin.Relate | src/Dao/Relation/HasJoin.php:105-117 | issues the join inserts in target order and then links and returns true; a failing insert stops the loop, propagates its error and leaves the flag as it was; a linked relation stays linked |
| DaoArrays.DaoArray.constructor | src/DaoArray.php:77-94 | a preset table or key is kept; otherwise the table is the class's base name and the key `<table>_id`; a fresh builder |
| DaoArrays.DaoArray.Query | src/DaoArray.php:108-115 | a fresh builder has no condition |
| DaoArrays.DaoArray.Where | src/DaoArray.php:129-135 | a forwarded `where` adds one condition to the builder |
| DaoArrays.DaoArray.IdValue | src/DaoArray.php:252-254 | a scalar id as given; from an array, its primary-key entry (null when absent) |
| DaoArrays.DaoArray.SetId | src/DaoArray.php:250-256 | adds `primaryKey = id`, taking the id from the array's primary-key entry when given an array |
| DaoArrays.DaoArray.UpdateTimeStamps | src/DaoArray.php:262-273 | the data stamped from the shared instant, which is cached |
| DaoArrays.DaoArray.Insert | src/DaoArray.php:181-196 | inserts the stamped row (`insertGetId` with a serial key, `insert` without); returns the generated id or true; fresh builder |
| DaoArrays.DaoArray.Update | src/DaoArray.php:204-218 | updates the selected rows with the stamped data (no `created_*`); fresh builder |
| DaoArrays.DaoArray.UpdateId | src/DaoArray.php:206-210 | the two-argument form first restricts the update to the id |
| DaoArrays.DaoArray.Select | src/DaoArray.php:224-232 | selects the columns under the builder's conditions and returns the fetched rows; fresh builder |
| DaoArrays.DaoArray.Delete | src/DaoArray.php:238-245 | deletes under the builder's conditions, passing the id on; fresh builder |
| DaoEntities.DaoEntity.constructor | src/DaoEntity.php:20-34 | wraps the DAO with no entity saved and nothing retrieved or deleted yet |
| DaoEntities.DaoEntity.IsRetrieved | src/DaoEntity.php:127-129 | true exactly when that very object was recorded as loaded or inserted |
| DaoEntities.DaoEntity.IsDeleted | src/DaoEntity.php:135-137 | true exactly when that very object was recorded as removed |
| DaoEntities.DaoEntity.Hash | src/DaoEntity.php:119-121 | appends the object to the retrieved list |
| DaoEntities.DaoEntity.Create | src/DaoEntity.php:52-58 | a new entity holding the data, not yet retrieved |
| DaoEntities.DaoEntity.Save | src/DaoEntity.php:63-77 | the stamps come from the shared, cached instant; a retrieved entity is updated by its key (no insert, entity unchanged); any other is inserted, receives the id under the primary key and is appended to the retrieved list; afterwards it is retrieved |
| DaoEntities.DaoEntity.Load | src/DaoEntity.php:83-99 | selects all columns (by id when truthy); every row becomes a new, distinct entity appended to the retrieved list in order; returns the first (null when none) or the list |
| DaoEntities.DaoEntity.Remove | src/DaoEntity.php:104-112 | passes the entity's key value to the builder's delete, under the current conditions, and appends the entity to the deleted list; the retrieved list is unchanged |
| Entities.SetProp | src/Entity/EntityAccess.php:71-77 | throws exactly on the empty name or a set property; otherwise the properties with that one entry written, so a write never creates the empty name |
| Entities.Assigned | src/Entity/EntityAccess.php:27-32 | no property disappears, and a property that was set keeps its value |
| Entities.SetThenGet | src/Entity/EntityAccess.php:71-77 | a write throws exactly on the empty name or a set (non-null) property; otherwise it reads back, `offsetExists` holds iff the value is non-null, and nothing else changes |
| Entities.WriteOnce | src/Entity/EntityAccess.php:71-77 | after storing a non-null value a second write throws `InvalidArgumentException`; after storing null the next write succeeds |
| Entities.AssignFresh | src/Entity/EntityAccess.php:19-32 | assigning distinct non-empty unset names succeeds and stores every entry, leaving other properties alone |
| Entities.AssignFails | src/Entity/EntityAccess.php:27-32 | an assignment fails only on one of its own names, empty or already set when reached |
| Entities.OffsetGetAsWritten | src/Entity/EntityAccess.php:58-61 | as written, reads the property named "" whatever the offset: null unless that property is set |
| Entities.OffsetGetAsWrittenAlwaysNull | src/Entity/EntityAccess.php:58-61 | as written, on properties without an empty name every offset reads null, even a set property |
| Entities.OffsetGetAsWrittenLosesValue | src/Entity/EntityAccess.php:58-61 | as written, `offsetGet('name')` is null while `name` holds "Alice" |
| Entities.EntityAccess.constructor | src/Entity/EntityAccess.php:19-22 | the properties are exactly the data's entries |
| Entities.EntityAccess.Assign | src/Entity/EntityAccess.php:27-32 | writes the entries in order and stops at the first exception, as `Assigned` states |
| Entities.EntityAccess.Get | src/Entity/EntityAccess.php:38-41 | the stored value, null for an absent property |
| Entities.EntityAccess.OffsetExists | src/Entity/EntityAccess.php:48-51 | true exactly when `__get` reads a non-null value |
| Entities.EntityAccess.OffsetGet | src/Entity/EntityAccess.php:58-61 | the value `__get` returns; non-null exactly when `offsetExists` holds |
| Entities.EntityAccess.OffsetSet | src/Entity/EntityAccess.php:71-77 | stores the value unless the name is empty or set; otherwise throws and changes nothing |
| Entities.EntityAccess.OffsetUnset | src/Entity/EntityAccess.php:84-87 | always throws `InvalidArgumentException` and changes nothing |
| DbGateway.GatewayTableName | src/WScore/DbGateway/Gateway.php:49-52 | a namespaced class gives a backslash followed by its base name; a name without a backslash is kept whole |
| DbGateway.GatewayTableKeepsBackslash | src/WScore/DbGateway/Gateway.php:47-54 | a class `ns\Users` gets the table `\Users` (a DAO gets `Users`); a name without backslash is kept whole |
| DbGateway.Gateway.constructor | src/WScore/DbGateway/Gateway.php:38-42 | preset table and key are kept; otherwise they are derived by `setTable` and `setId` |
| DbGateway.Gateway.SetTable | src/WScore/DbGateway/Gateway.php:47-54 | a given name is used verbatim, else the name derived from the class |
| DbGateway.Gateway.SetId | src/WScore/DbGateway/Gateway.php:59-63 | a given key is kept, else `<table>_id` |
| DbGateway.Gateway.Query | src/WScore/DbGateway/Gateway.php:68-71 | a fresh query has no condition |
| DbGateway.Gateway.Fetch | src/WScore/DbGateway/Gateway.php:95-105 | the column defaults to the key; a condition is added only for a non-null value; selects on the current query |
| DbGateway.Gateway.Find | src/WScore/DbGateway/Gateway.php:81-85 | on a fresh query, selects by the key |
| DbGateway.Gateway.Update | src/WScore/DbGateway/Gateway.php:117-127 | with a truthy id the data goes as given; otherwise the id is taken from the data and its key removed from the values |
| DbGateway.Gateway.Delete | src/WScore/DbGateway/Gateway.php:135-141 | deletes at most one row, the one with the id |
| DbGateway.Gateway.InsertData | src/WScore/DbGateway/Gateway.php:182-187 | inserts the data as given on a fresh query |
| DbGateway.Gateway.InsertId | src/WScore/DbGateway/Gateway.php:170-177 | inserts the data without its key, returns the generated id and writes it back under the key, other entries unchanged |
| DbGateway.Gateway.InsertValue | src/WScore/DbGateway/Gateway.php:159-164 | returns the key's entry when present (even null), else true |
| DbGateway.Gateway.Insert | src/WScore/DbGateway/Gateway.php:148-151 | is `insertId` |
| Daos.ToEntities | src/Dao.php:235-237 | each row converted, same count and order |
| Daos.InsertKeepsId | src/Dao.php:194-197 | the kept data holds the generated id under the key, and the caller's columns unchanged beside the stamps |
| Daos.Dao.constructor | src/Dao.php:94-115 | a preset table or key is kept; otherwise base class name and `<table>_id`; no data yet |
| Daos.Dao.Query | src/Dao.php:120-125 | a fresh builder has no condition |
| Daos.Dao.Where | src/Dao.php:139-141 | a forwarded `where` adds one condition |
| Daos.Dao.Insert | src/Dao.php:187-205 | keeps the stamped data; inserts its array form; with a serial key the kept data gets the generated id and it is returned, else true; fresh builder |
| Daos.Dao.Update | src/Dao.php:211-223 | keeps the stamped data and updates with its array form; fresh builder |
| Daos.Dao.Select | src/Dao.php:229-241 | every fetched row converted to an entity in order, kept and returned; fresh builder |
| Daos.Dao.Delete | src/Dao.php:247-254 | deletes under the builder's conditions, passing the id on; fresh builder |

## Left out

- The query builder and the database (`Manager`, `Builder`, `WScore\DbAccess\Query`): statements are logged, not executed. Generated ids and fetched rows are parameters, and so is the failure of one of `relate`'s inserts.
- Database errors raised by the DAOs' and the gateway's own statements are not modelled; each statement is taken to succeed. A contract such as `Save`'s `IsRetrieved(e)` therefore holds on success only; a failing statement would leave `$this->entity` and the cached instant set without the hash or the builder reset.
- The builder's `delete($id)` is given the id value only; which column it filters on is the builder's affair and is not modelled.
- The counts that `update` and `delete` return come from the database and are not modelled.
- `DateTime` and its formatting: an instant is given as its three formatted strings.
- Hooks (`hooks('...')`): they dispatch by reflection to methods of subclasses and are treated as doing nothing.
  - For that reason, the id that `DaoArray::insert` writes into its local `$data` is not modelled; only hooks would see it.
  - The same holds for the id `Dao::insert` writes into `$values`.
- `Converter`, `Magic` and `Dao::dao`: `Dao`'s conversions are functions on rows, while `DaoEntity`'s converter is taken as the identity (an entity's fields are its row, so converting back gives the row itself); and `Magic::get`/`set` read and write a field.
  - The code of `Magic` is not part of this model. `Magic::get` on the list of targets in `relate` is taken to read the list like an array, by index.
  - As written, `relate` asks `Dao::dao` for the join DAO by way of the looked-up null. The model takes the join DAO to be the one for the resolved join table.
  - The relation's two DAOs are given by their table and key.
  - `HasJoin` never assigns `$this->dao`; the model takes it to be the source DAO.
  - `DaoEntity::setConverter` is not modelled.
- `Dao::insert` and `Dao::update` keep the caller's `$data` itself, which may be an `ArrayObject`. In that case the stamps and the generated id that `convert->set` writes reach the caller's object. The model keeps a `Row` copy, so this aliasing is not captured.
- The inserts of `relate` go through the join table's own DAO. Its stamping and id handling are not applied to the logged join rows.
- `FilterManager` (`filters->apply`) in `Gateway`: its code is not part of this model.
- `spl_object_hash`: object identity stands for the hash.
- PHP `sort`'s numeric-string comparison: table names are compared byte-wise.
- `q()` returns the DAO itself and `query(false)` returns the current builder; neither changes anything.
- Field values are scalars. An array passed to `Gateway::fetch` (an `IN` condition) is not modelled.
- Relations.HasJoin.SetSource: the source is held by value, so the reference `setSource(&$source)` keeps is not modelled.
- Entities.EntityAccess.constructor: data with an empty key is excluded, because PHP stops there with a fatal error; `Assign` and `OffsetSet` model that error.
- PHP version: the model follows PHP before 7.1, where an empty property name is the fatal error "Cannot access empty property". From 7.1 on such a property is accepted, so a write under "" would succeed and the as-written `offsetGet` would return that property's value instead of null.

## Findings

| source | as written | input that shows it | evidently intended | confidence | as-written member | corrected member |
|---|---|---|---|---|---|---|
| src/Dao/Relation/HasJoin.php:107-110 | reads the target key from the list of targets and iterates that (null) value, so no join row is inserted, yet the relation is marked linked | any non-empty target list, e.g. author 7 with roles 1, 2, 3 | one join row per target entity, with that entity's key, into the resolved join table | high, not executed | Relations.RelateAsWrittenLosesLinks | Relations.HasJoin.Relate |
| src/Entity/EntityAccess.php:58-61 | tests and reads `$this->$name`, an undefined variable, so it reads the property named "" | properties `name => "Alice"`, `offsetGet('name')` gives null | the same value as `__get($offset)` | high, not executed | Entities.OffsetGetAsWrittenLosesValue | Entities.EntityAccess.OffsetGet |
