# YCSB storage adapters: Hazelcast, MySQL and MongoDB

This project models three storage adapters of the Yahoo! Cloud Serving Benchmark. Each one
translates the benchmark's `insert`, `read`, `update`, `delete` and `scan` calls on records
into calls on a vendor client. A record is a map from field name to field value. Every
operation answers 0 for success or 1 for failure. It may also signal that the operation is
unsupported, or let a runtime exception escape to the benchmark.

The vendor clients are not modelled. Each is replaced by an abstract value:

- **Hazelcast** (`hazelcast.dfy`): the cluster is a `Cluster` object. It holds named maps from
  key to record and named FIFO queues of records of bounded capacity, and it may be
  unreachable. `HazelcastClient` keeps the fields that `init` sets: debug, super client, mode
  and poll timeout. Each operation is proved against a step function on the cluster's state
  (`InsertStep`, `ReadStepOf`, `UpdateStep`, `DeleteStep`). The MAP/QUEUE properties are
  lemmas about those functions.
- **MySQL** (`mysql.dfy`, with SQL text helpers in `sql_text.dfy`): the static c3p0 pool is
  the object `DataSourceSlot`. JDBC is the value `Jdbc`: whether a connection can be had, and
  what `executeUpdate`/`execute` report for a statement. MySQL Connector/J refuses a
  statement with an unbound placeholder, so `RunUpdate`/`RunQuery` raise for such a
  statement. The statements the adapter builds are specified as functions. The
  StringBuilder, array and binding loops are methods proved equal to those functions.
  Placeholder counts and binding alignment are proved about the functions.
- **MongoDB** (`mongodb.dfy`): the driver is the value `Server`. It gives the last-error
  document after a write, the result of `findOne`, and the documents a `find` cursor yields.
  `MongoDbClient` keeps `mongo`, `writeConcern` and `database`. Each operation returns the
  calls it makes on the driver's DB object (`requestStart`, the request, `requestDone`) and
  its status.

`records.dfy` holds what the three share: `Record`, `Status` and the entries of a HashMap in
iteration order (`Entries`).

Three behaviours of the code as written are stated as they are:

- MySQL `read` returns 0 when `execute()` yields a result set, even one without rows.
- MongoDB `read` merges the found document into `result` as it is, `_id` included.
- MongoDB `delete` sends its `remove` without setting the write concern on the collection.

## Model

| member | source | states |
|---|---|---|
| Hazelcast.StructureName | db/hazelcast/src/com/yahoo/ycsb/db/HazelcastClient.java:139-140 | in debug mode every operation uses the structure named "default"; otherwise it uses the table it is given |
| Hazelcast.ModeFor | db/hazelcast/src/com/yahoo/ycsb/db/HazelcastClient.java:50-66 | the mode is fatal exactly when the value is absent or matches neither "queue" nor "map" ignoring case; QUEUE and MAP are chosen only by a match |
| Hazelcast.InsertStep | db/hazelcast/src/com/yahoo/ycsb/db/HazelcastClient.java:137-159 | insert succeeds exactly when the cluster is reachable and, in QUEUE mode, the queue has room; a failed insert changes nothing; a MAP insert leaves the queues and a QUEUE insert the maps alone |
| Hazelcast.ReadStepOf | db/hazelcast/src/com/yahoo/ycsb/db/HazelcastClient.java:167-190 | a read returns 0 or 1; a failed read changes neither the cluster nor the caller's map; a MAP read changes no structure; a successful read only adds to the caller's map |
| Hazelcast.UpdateStep | db/hazelcast/src/com/yahoo/ycsb/db/HazelcastClient.java:209-234 | update returns 0 or 1, never touches a queue, and changes nothing when it fails |
| Hazelcast.DeleteStep | db/hazelcast/src/com/yahoo/ycsb/db/HazelcastClient.java:113-129 | delete fails exactly in MAP mode on an unreachable cluster, then changing nothing, and never touches a queue |
| Hazelcast.Cluster.MapGet | db/hazelcast/src/com/yahoo/ycsb/db/HazelcastClient.java:175 | get returns the record stored under the key, or null when there is none |
| Hazelcast.Cluster.MapPut | db/hazelcast/src/com/yahoo/ycsb/db/HazelcastClient.java:145 | put replaces the record under the key in the named map; nothing else changes |
| Hazelcast.Cluster.MapRemove | db/hazelcast/src/com/yahoo/ycsb/db/HazelcastClient.java:121 | remove drops the key from the named map; nothing else changes |
| Hazelcast.Cluster.QueueOffer | db/hazelcast/src/com/yahoo/ycsb/db/HazelcastClient.java:149 | offer appends at the tail exactly when the queue is below capacity, and reports whether it did |
| Hazelcast.Cluster.QueuePoll | db/hazelcast/src/com/yahoo/ycsb/db/HazelcastClient.java:180 | poll removes and returns the head; an empty queue gives null and stays as it is |
| Hazelcast.Overlay | db/hazelcast/src/com/yahoo/ycsb/db/HazelcastClient.java:219-224 | after the iterator loop the record has the union of both key sets, fields of `values` win, and every other old field is kept |
| Hazelcast.HazelcastClient.constructor | db/hazelcast/src/com/yahoo/ycsb/db/HazelcastClient.java:27-31 | a new client is not in debug mode, not a super client, in MAP mode, with a 100 ms poll timeout |
| Hazelcast.HazelcastClient.HasClient | db/hazelcast/src/com/yahoo/ycsb/db/HazelcastClient.java:88-106 | getMap and getQueue reach the cluster for a super client, or once init has created the regular client; otherwise they dereference null |
| Hazelcast.HazelcastClient.Init | db/hazelcast/src/com/yahoo/ycsb/db/HazelcastClient.java:41-86 | debug is set by the system property; "map"/"queue" select the mode ignoring case, and anything else exits with 1; the timeout changes only in QUEUE mode when given; without super client mode a missing address exits with 1; a client that initialised can reach the cluster |
| Hazelcast.HazelcastClient.Insert | db/hazelcast/src/com/yahoo/ycsb/db/HazelcastClient.java:137-159 | a client without a cluster client gives 1 and changes nothing; otherwise the new cluster state and the status are those of `InsertStep`: put in MAP mode, offer in QUEUE mode, and status 1 when the offer is refused or the cluster raises |
| Hazelcast.HazelcastClient.Read | db/hazelcast/src/com/yahoo/ycsb/db/HazelcastClient.java:167-190 | a client without a cluster client gives 1 with the result untouched; otherwise the cluster, the caller's result map and the status are those of `ReadStepOf` |
| Hazelcast.HazelcastClient.Update | db/hazelcast/src/com/yahoo/ycsb/db/HazelcastClient.java:209-234 | in MAP mode a client without a cluster client gives 1 and changes nothing, even for empty values, since the map is looked up first; otherwise the cluster and the status are those of `UpdateStep`: read-modify-write overlay in MAP mode, nothing in QUEUE mode |
| Hazelcast.HazelcastClient.Delete | db/hazelcast/src/com/yahoo/ycsb/db/HazelcastClient.java:113-129 | in MAP mode a client without a cluster client gives 1 and changes nothing; otherwise the cluster and the status are those of `DeleteStep`: remove in MAP mode, nothing in QUEUE mode |
| Hazelcast.HazelcastClient.Scan | db/hazelcast/src/com/yahoo/ycsb/db/HazelcastClient.java:198-201 | scan is unsupported in both modes |
| Hazelcast.ModeIgnoresCase | db/hazelcast/src/com/yahoo/ycsb/db/HazelcastClient.java:50-66 | two property values equal up to letter case select the same mode |
| Hazelcast.ModeExamples | db/hazelcast/src/com/yahoo/ycsb/db/HazelcastClient.java:50-66 | "QUEUE" selects QUEUE and "Map" selects MAP; an absent, empty or other value is fatal |
| Hazelcast.InsertThenRead | db/hazelcast/src/com/yahoo/ycsb/db/HazelcastClient.java:143-177 | in MAP mode, after an insert a read of the same key succeeds and merges exactly the inserted record into the caller's map |
| Hazelcast.InsertKeepsOtherRecords | db/hazelcast/src/com/yahoo/ycsb/db/HazelcastClient.java:143-146 | in MAP mode, insert leaves every other key of every map, and all queues, unchanged |
| Hazelcast.UpdateKeepsOtherRecords | db/hazelcast/src/com/yahoo/ycsb/db/HazelcastClient.java:216-225 | in MAP mode, update leaves every other key of every map, and all queues, unchanged |
| Hazelcast.DeleteKeepsOtherRecords | db/hazelcast/src/com/yahoo/ycsb/db/HazelcastClient.java:119-122 | in MAP mode, delete leaves every other key of every map, and all queues, unchanged |
| Hazelcast.ReadAbsentKey | db/hazelcast/src/com/yahoo/ycsb/db/HazelcastClient.java:173-189 | in MAP mode, reading an absent key gives status 1 and changes neither the caller's map nor the cluster |
| Hazelcast.UpdateOverlays | db/hazelcast/src/com/yahoo/ycsb/db/HazelcastClient.java:216-226 | in MAP mode, an update of a present key with values succeeds; the stored record is the old one overlaid by the values |
| Hazelcast.UpdateFailsOrDoesNothing | db/hazelcast/src/com/yahoo/ycsb/db/HazelcastClient.java:217-233 | in MAP mode, an update of an absent key with values gives 1 and changes nothing; an update with null or empty values gives 0 and changes nothing |
| Hazelcast.DeleteThenRead | db/hazelcast/src/com/yahoo/ycsb/db/HazelcastClient.java:119-128 | in MAP mode, delete succeeds whether or not the key is present, and a later read of the key fails |
| Hazelcast.QueueModeUpdateDelete | db/hazelcast/src/com/yahoo/ycsb/db/HazelcastClient.java:209-234 | in QUEUE mode, update and delete change nothing and give 0 |
| Hazelcast.PollEmptyQueue | db/hazelcast/src/com/yahoo/ycsb/db/HazelcastClient.java:178-189 | in QUEUE mode, reading an empty queue gives 0 with the caller's map unchanged |
| Hazelcast.QueueReadIgnoresKey | db/hazelcast/src/com/yahoo/ycsb/db/HazelcastClient.java:178-183 | in QUEUE mode, the key a read is given makes no difference |
| Hazelcast.OfferAllAppends | db/hazelcast/src/com/yahoo/ycsb/db/HazelcastClient.java:147-152 | in QUEUE mode, inserts within capacity append their records at the tail in order |
| Hazelcast.OfferOne | db/hazelcast/src/com/yahoo/ycsb/db/HazelcastClient.java:147-152 | in QUEUE mode, one insert below capacity appends exactly its record |
| Hazelcast.PollManyTakesPrefix | db/hazelcast/src/com/yahoo/ycsb/db/HazelcastClient.java:178-183 | in QUEUE mode, n reads hand out the first n records of the queue in order |
| Hazelcast.QueueIsFifo | db/hazelcast/src/com/yahoo/ycsb/db/HazelcastClient.java:147-183 | in QUEUE mode, records inserted into an empty queue are read back in insertion order |
| Hazelcast.OfferToFullQueue | db/hazelcast/src/com/yahoo/ycsb/db/HazelcastClient.java:149-151 | in QUEUE mode, an insert into a full queue gives 1 and changes nothing |
| Hazelcast.MapScenario | db/hazelcast/src/com/yahoo/ycsb/db/HazelcastClient.java:137-234 | in MAP mode, insert, read, update of one field, read and delete all give 0, the reads give the inserted and then the updated record, and the final read fails |
| Hazelcast.ScenarioUpdate | db/hazelcast/src/com/yahoo/ycsb/db/HazelcastClient.java:209-234 | updating one of two fields gives 0 and is visible to the next read; delete gives 0 and the read after it fails |
| Hazelcast.ScenarioUpdatedRecord | db/hazelcast/src/com/yahoo/ycsb/db/HazelcastClient.java:216-225 | updating one of two fields gives 0 and stores the record with that field replaced and the other kept |
| SqlText.DropTrailingComma | db/mysql/src/com/yahoo/ycsb/db/MysqlClient.java:239 | cutting the last character off a non-empty comma-terminated list gives the comma-joined list |
| SqlText.PlaceholdersOfList | db/mysql/src/com/yahoo/ycsb/db/MysqlClient.java:120-126 | a comma-terminated list of texts with `each` placeholders apiece has `each` times its length placeholders |
| SqlText.PlaceholdersOfJoined | db/mysql/src/com/yahoo/ycsb/db/MysqlClient.java:232-239 | the same for the comma-joined list |
| Mysql.DataSourceSlot.constructor | db/mysql/src/com/yahoo/ycsb/db/MysqlClient.java:38 | there is no pool before the first init |
| Mysql.InitStep | db/mysql/src/com/yahoo/ycsb/db/MysqlClient.java:50-74 | after init a pool always exists; an existing pool is kept as it is; init completes exactly when there was a pool, or the driver is accepted and all three pool sizes parse; it is vetoed exactly when a new pool refuses the driver; an accepted driver gets the driver, URL, user and password settings |
| Mysql.Init | db/mysql/src/com/yahoo/ycsb/db/MysqlClient.java:44-78 | the pool is created only when absent; it is published before it is configured; a vetoed driver gives DBException; a missing pool size raises NumberFormatException after the earlier settings are made |
| Mysql.InitOnlyOnce | db/mysql/src/com/yahoo/ycsb/db/MysqlClient.java:50 | once a pool exists, init leaves it as it is, whatever the properties |
| Mysql.RepeatedInitKeepsFirst | db/mysql/src/com/yahoo/ycsb/db/MysqlClient.java:50-72 | the pool the first init leaves behind survives every later init |
| Mysql.FullInit | db/mysql/src/com/yahoo/ycsb/db/MysqlClient.java:55-70 | with every property present and the driver accepted, init sets all seven pool settings from the properties |
| Mysql.MissingPoolMin | db/mysql/src/com/yahoo/ycsb/db/MysqlClient.java:65-66 | a missing mysql.pool.min makes init raise but leaves a pool without sizes that later inits keep |
| Mysql.AssignmentPlaceholders | db/mysql/src/com/yahoo/ycsb/db/MysqlClient.java:122-123 | each "k=?" has exactly one placeholder when no field name contains '?' |
| Mysql.InsertStatement | db/mysql/src/com/yahoo/ycsb/db/MysqlClient.java:128-137 | insert binds exactly parameters 1..n + 1: the values in iteration order, then the key |
| Mysql.UpdateStatement | db/mysql/src/com/yahoo/ycsb/db/MysqlClient.java:242-248 | update binds exactly parameters 1..n + 1: the values in iteration order, then the key |
| Mysql.ReadStatement | db/mysql/src/com/yahoo/ycsb/db/MysqlClient.java:180-182 | read binds only parameter 1, to the key |
| Mysql.DeleteStatement | db/mysql/src/com/yahoo/ycsb/db/MysqlClient.java:86-89 | delete's statement has one placeholder and binds nothing |
| Mysql.InsertTextPlaceholders | db/mysql/src/com/yahoo/ycsb/db/MysqlClient.java:128-129 | the fixed text of the insert statement has one placeholder, in "id=?" |
| Mysql.UpdateTextPlaceholders | db/mysql/src/com/yahoo/ycsb/db/MysqlClient.java:242-243 | the fixed text of the update statement has one placeholder, in " WHERE id=?" |
| Mysql.ReadTextPlaceholders | db/mysql/src/com/yahoo/ycsb/db/MysqlClient.java:180-181 | the fixed text of the select statement has one placeholder, in " WHERE id=?" |
| Mysql.DeleteTextPlaceholders | db/mysql/src/com/yahoo/ycsb/db/MysqlClient.java:86-87 | the delete statement has exactly one placeholder |
| Mysql.ValuesThenKey | db/mysql/src/com/yahoo/ycsb/db/MysqlClient.java:134-137 | parameter i (1..n) is the i-th value in iteration order and parameter n + 1 is the key |
| Mysql.BoundByCount | db/mysql/src/com/yahoo/ycsb/db/MysqlClient.java:134-137 | binding as many parameters as the statement has placeholders binds every placeholder and nothing else |
| Mysql.InsertSetList | db/mysql/src/com/yahoo/ycsb/db/MysqlClient.java:127-129 | insert's SET list without the trailing-comma cut is the assignments and "id=?", comma-joined |
| Mysql.InsertStatementShape | db/mysql/src/com/yahoo/ycsb/db/MysqlClient.java:114-137 | insert's SQL is "INSERT INTO usertable SET k1=?,...,kn=?,id=?" with n + 1 placeholders; the values come first in iteration order, then the key; every placeholder is bound |
| Mysql.UpdateStatementShape | db/mysql/src/com/yahoo/ycsb/db/MysqlClient.java:226-248 | for non-empty values update's SQL has n + 1 placeholders, bound as insert's, and is fully bound |
| Mysql.ReadStatementShape | db/mysql/src/com/yahoo/ycsb/db/MysqlClient.java:168-182 | read's SQL has one placeholder, bound to the key, whether it selects * or named fields |
| Mysql.SetListPrefixComplete | db/mysql/src/com/yahoo/ycsb/db/MysqlClient.java:120-126 | after i rounds the StringBuilder holds the first i assignments, each followed by a comma |
| Mysql.SetClause | db/mysql/src/com/yahoo/ycsb/db/MysqlClient.java:114-126 | the loop builds "k=?," for every field in iteration order and fills `vals` with the values in the same order |
| Mysql.BindAll | db/mysql/src/com/yahoo/ycsb/db/MysqlClient.java:134-137 | the binding loop sets parameters 1..n to `vals` and n + 1 to the key |
| Mysql.PrepareInsert | db/mysql/src/com/yahoo/ycsb/db/MysqlClient.java:114-137 | the statement insert prepares and binds is `InsertStatement` |
| Mysql.PrepareUpdate | db/mysql/src/com/yahoo/ycsb/db/MysqlClient.java:226-248 | empty values make setLength(-1) fail; otherwise the statement is `UpdateStatement` |
| Mysql.PrepareRead | db/mysql/src/com/yahoo/ycsb/db/MysqlClient.java:168-182 | an empty field set makes setLength(-1) fail; otherwise the statement is `ReadStatement`: * for null fields, else the comma-joined names |
| Mysql.WriteStatus | db/mysql/src/com/yahoo/ycsb/db/MysqlClient.java:155 | the return code is 0 exactly when the update reported more than zero rows, and 1 otherwise, also after an SQLException |
| Mysql.RunUpdate | db/mysql/src/com/yahoo/ycsb/db/MysqlClient.java:89 | executeUpdate raises for a statement that is not fully bound; otherwise it gives what the server reports |
| Mysql.RunQuery | db/mysql/src/com/yahoo/ycsb/db/MysqlClient.java:183 | execute raises for a statement that is not fully bound; otherwise it gives what the server produces |
| Mysql.ColumnValue | db/mysql/src/com/yahoo/ycsb/db/MysqlClient.java:192 | getString by label finds a value exactly when some column carries the label, and the value is that of such a column |
| Mysql.ColumnValueFound | db/mysql/src/com/yahoo/ycsb/db/MysqlClient.java:190-193 | getString on a column's own label finds a value, and with distinct labels it is that column's value |
| Mysql.ColumnsCopiedStep | db/mysql/src/com/yahoo/ycsb/db/MysqlClient.java:190-193 | one round of the column loop puts the next column into the result and keeps the earlier ones |
| Mysql.OthersKeptStep | db/mysql/src/com/yahoo/ycsb/db/MysqlClient.java:190-193 | one round of the column loop leaves every other entry of the caller's map alone |
| Mysql.CopyRow | db/mysql/src/com/yahoo/ycsb/db/MysqlClient.java:186-194 | the column loop adds every column label of the row to the result with the value getString gives it, and keeps every other entry |
| Mysql.Insert | db/mysql/src/com/yahoo/ycsb/db/MysqlClient.java:106-157 | with no pool, NullPointerException escapes; with no connection the status is 1; otherwise it is the write status of `InsertStatement` |
| Mysql.Update | db/mysql/src/com/yahoo/ycsb/db/MysqlClient.java:220-266 | empty values raise StringIndexOutOfBoundsException before a connection is sought; otherwise as insert, with `UpdateStatement` |
| Mysql.Read | db/mysql/src/com/yahoo/ycsb/db/MysqlClient.java:159-211 | no connection or an SQLException gives 1; an empty field set raises; no result set makes rs.next() raise NullPointerException; a result set gives 0 and copies its first row, if any, into the result |
| Mysql.Delete | db/mysql/src/com/yahoo/ycsb/db/MysqlClient.java:80-104 | the status is the write status of the delete statement, which binds no parameter |
| Mysql.Scan | db/mysql/src/com/yahoo/ycsb/db/MysqlClient.java:213-218 | scan is unsupported |
| Mysql.InsertStatus | db/mysql/src/com/yahoo/ycsb/db/MysqlClient.java:139-155 | insert gives 0 exactly when the server reports an affected row for the insert statement |
| Mysql.UpdateStatus | db/mysql/src/com/yahoo/ycsb/db/MysqlClient.java:249-265 | update with values gives 0 exactly when the server reports an affected row for the update statement |
| Mysql.DeleteAlwaysFails | db/mysql/src/com/yahoo/ycsb/db/MysqlClient.java:86-103 | delete's statement is not fully bound, so delete gives 1 whatever the server holds |
| Mysql.DeleteStatementFixedBound | db/mysql/src/com/yahoo/ycsb/db/MysqlClient.java:86-89 | with the key bound to parameter 1, the delete statement is fully bound |
| Mysql.DeleteFixed | db/mysql/src/com/yahoo/ycsb/db/MysqlClient.java:80-104 | delete with the key bound gives 0 exactly when the server reports a removed row |
| MongoDb.Strings | db/mongodb/src/com/yahoo/ycsb/db/MongoDbClient.java:142 | the record's fields become string fields of the document, with the same names and values |
| MongoDb.IdQuery | db/mongodb/src/com/yahoo/ycsb/db/MongoDbClient.java:103 | the query of insert, read, update and delete has the single field "_id", set to the key |
| MongoDb.SetUpdate | db/mongodb/src/com/yahoo/ycsb/db/MongoDbClient.java:243 | the update document has the single field "$set", holding the fields to set |
| MongoDb.ScanQuery | db/mongodb/src/com/yahoo/ycsb/db/MongoDbClient.java:284-285 | the scan query has the single field "_id", holding {$gte: startkey} |
| MongoDb.InsertDocument | db/mongodb/src/com/yahoo/ycsb/db/MongoDbClient.java:141-142 | the insert document has "_id" and every field of the record; the record's fields win, and "_id" is the key unless the record has its own |
| MongoDb.DeleteQuery | db/mongodb/src/com/yahoo/ycsb/db/MongoDbClient.java:103-106 | the delete query has "_id" = key, and "$atomic" = true exactly when the write concern is STRICT, and nothing else |
| MongoDb.Projection | db/mongodb/src/com/yahoo/ycsb/db/MongoDbClient.java:191-193 | the projection maps exactly the requested fields to 1 |
| MongoDb.ConnectAddress | db/mongodb/src/com/yahoo/ycsb/db/MongoDbClient.java:66-78 | there is no address exactly when url or database is null or empty |
| MongoDb.WriteConcernFor | db/mongodb/src/com/yahoo/ycsb/db/MongoDbClient.java:56-62 | "none", "strict" and "normal" select NONE, STRICT and NORMAL; any other value, or none, keeps the current write concern |
| MongoDb.NormalizeUrl | db/mongodb/src/com/yahoo/ycsb/db/MongoDbClient.java:76-78 | a "mongodb://" URL loses exactly the scheme, so putting the scheme back gives the URL followed by "/" and the database; any other URL is used as it is |
| MongoDb.WriteStatus | db/mongodb/src/com/yahoo/ycsb/db/MongoDbClient.java:112-115 | a write returns 0 exactly when its last-error document exists and passes the test, and 1 otherwise; any exception gives 1 |
| MongoDb.InsertAcknowledged | db/mongodb/src/com/yahoo/ycsb/db/MongoDbClient.java:152-153 | insert's test: "ok" is Boolean true and "err" is absent or null |
| MongoDb.OneAffected | db/mongodb/src/com/yahoo/ycsb/db/MongoDbClient.java:252 | update's and delete's test: "n" is the Integer 1 |
| MongoDb.LastErrorTests | db/mongodb/src/com/yahoo/ycsb/db/MongoDbClient.java:152-153 | a missing field, a field of another type than the cast expects, or any non-null "err" fails the test; ok true with no error, and n = 1, pass |
| MongoDb.FieldsToSet | db/mongodb/src/com/yahoo/ycsb/db/MongoDbClient.java:235-242 | update's loop puts exactly the record's fields, as strings, into the $set document |
| MongoDb.FieldsToReturn | db/mongodb/src/com/yahoo/ycsb/db/MongoDbClient.java:191-193 | read's and scan's loop builds the projection of the requested fields |
| MongoDb.BuildProjection | db/mongodb/src/com/yahoo/ycsb/db/MongoDbClient.java:186-197 | null fields give no projection; otherwise the projection of the fields |
| MongoDb.MongoDbClient.constructor | db/mongodb/src/com/yahoo/ycsb/db/MongoDbClient.java:41-43 | a new client has no driver and the NORMAL write concern |
| MongoDb.MongoDbClient.Init | db/mongodb/src/com/yahoo/ycsb/db/MongoDbClient.java:49-87 | database and write concern are set first; init succeeds exactly when the address exists and the driver opens it, and then the driver is on that address |
| MongoDb.MongoDbClient.Insert | db/mongodb/src/com/yahoo/ycsb/db/MongoDbClient.java:133-163 | without a driver the status is 1 and nothing is called; otherwise one session sends the insert document with the write concern, and the status is 0 exactly when ok is true and err is null |
| MongoDb.MongoDbClient.Update | db/mongodb/src/com/yahoo/ycsb/db/MongoDbClient.java:224-262 | one session sends {_id: key} and {$set: values} with the write concern; the status is 0 exactly when n is 1 |
| MongoDb.MongoDbClient.Delete | db/mongodb/src/com/yahoo/ycsb/db/MongoDbClient.java:97-121 | one session sends the delete query; the status is 0 exactly when n is 1 |
| MongoDb.MongoDbClient.Read | db/mongodb/src/com/yahoo/ycsb/db/MongoDbClient.java:176-212 | one session sends findOne with {_id: key} and the projection; the status is 0 exactly when a document is found, and only then is it merged into the result |
| MongoDb.MongoDbClient.Scan | db/mongodb/src/com/yahoo/ycsb/db/MongoDbClient.java:276-316 | one session sends find with {_id: {$gte: startkey}}, the projection and the limit; every document yielded is appended in cursor order; the status is 0 exactly when the cursor does not raise |
| MongoDb.WriteConcernSelection | db/mongodb/src/com/yahoo/ycsb/db/MongoDbClient.java:56-62 | from NORMAL, "none" selects NONE and "strict" selects STRICT, both only for that exact string; everything else leaves NORMAL |
| MongoDb.WriteConcernOtherKeeps | db/mongodb/src/com/yahoo/ycsb/db/MongoDbClient.java:56-62 | every string other than the exact names "none", "strict" and "normal", including other capitalisations, keeps the current write concern |
| MongoDb.WriteConcernCaseSensitive | db/mongodb/src/com/yahoo/ycsb/db/MongoDbClient.java:56-61 | examples: "STRICT" and "None" are not recognised and keep the current write concern |
| MongoDb.NormalizeSchemeUrl | db/mongodb/src/com/yahoo/ycsb/db/MongoDbClient.java:76-78 | a "mongodb://" URL becomes the rest of the URL, "/" and the database |
| MongoDb.NormalizeOtherUrl | db/mongodb/src/com/yahoo/ycsb/db/MongoDbClient.java:76-78 | any other URL is used as it is |
| MongoDb.InitAddress | db/mongodb/src/com/yahoo/ycsb/db/MongoDbClient.java:66-80 | "mongodb://host" with a non-empty database connects to host/database |
| MongoDb.StringsRoundTrip | db/mongodb/src/com/yahoo/ycsb/db/MongoDbClient.java:237-243 | reading the string fields back from the $set document gives the record |
| MongoDb.InsertDocumentRoundTrip | db/mongodb/src/com/yahoo/ycsb/db/MongoDbClient.java:141-142 | read back as strings, the insert document is the record with the key under "_id", unless the record has its own "_id" |
| MongoDb.DeleteQueryIsIdQuery | db/mongodb/src/com/yahoo/ycsb/db/MongoDbClient.java:103-106 | the delete query is {_id: key} itself exactly when the write concern is not STRICT |

## Left out

- The vendor clients are abstract values: the Hazelcast client and cluster lookup (`getMap`/`getQueue`), JDBC and the c3p0 pool, and the Mongo driver and its cursor. A super client and a regular Java client reach the same `Cluster`.
- Concurrency: MySQL's ReentrantLock around pool creation, and lost updates between concurrent Hazelcast read-modify-writes. Every operation runs alone.
- Logging to standard output and standard error is not modelled.
- `System.exit(1)` in Hazelcast init is the outcome `Exit(1)`.
- The system properties "debug" and "hazelcast.super.client" are parameters of init.
- Hazelcast.HazelcastClient.Read: the poll timeout is not modelled. A poll takes the head or finds the queue empty at once.
- Hazelcast.HazelcastClient.Init: a malformed hc.queuePollTimeoutMs is not modelled, because the property arrives parsed. In the source it makes `Integer.parseInt` raise.
- Hazelcast.HazelcastClient.Init: a failure of `newHazelcastClient` to connect is not modelled.
- Hazelcast.ModeFor: `equalsIgnoreCase` folds ASCII letters only. It is exact for the literals "map" and "queue" against which the property is compared.
- Mysql.Init: pool sizes arrive parsed. A missing or malformed number is `None`, which raises NumberFormatException as `Integer.parseInt` does.
- Mysql.Read: SQL NULL column values are not modelled; every column yields a string.
- Mysql.Read: JDBC finds columns by label case-insensitively. The model matches labels exactly and takes the first column with the label.
- Mysql.Read: an SQLException from reading the rows, after `execute()` succeeds, is not modelled.
- Mysql: the iteration order of a HashMap is a parameter, the sequence `Entries`.
- Hazelcast.HazelcastClient.Insert: `values` is never null. In the source a null record makes put or offer raise, which insert catches and answers with 1.
- Mysql.Insert: `values` is never null. In the source `values.keySet()` would raise an uncaught NullPointerException.
- Mysql.Update: `values` is never null. In the source `values.keySet()` would raise an uncaught NullPointerException.
- MongoDb.MongoDbClient.Insert: `values` is never null. In the source `putAll(null)` raises, which insert catches and answers with 1.
- MongoDb.MongoDbClient.Update: `values` is never null. In the source `values.keySet()` raises, which update catches and answers with 1.
- MongoDb.MongoDbClient.Init: the driver's parsing of `DBAddress` is the parameter `opens`.
- MongoDb: `getDB` and `getCollection` are assumed not to raise once a driver exists.
- MongoDb: generics are erased, so read and scan results hold BSON values rather than strings. Only strings, Integers, Booleans, null and nested documents are modelled. Any other type for "ok" or "n" fails the test, as the source's casts do.

## Findings

| source | as written | input that shows it | evidently intended | confidence | as-written member | corrected member |
|---|---|---|---|---|---|---|
| db/mysql/src/com/yahoo/ycsb/db/MysqlClient.java:86-89 | delete prepares "DELETE FROM usertable WHERE id=?" and calls executeUpdate without binding parameter 1, so the driver refuses the statement and delete returns 1 | any key, on any database: delete("usertable", "user1") | `stmt.setString(1, key)` before executeUpdate, so delete returns 0 exactly when a row was removed | not executed | Mysql.DeleteAlwaysFails | Mysql.DeleteFixed |
