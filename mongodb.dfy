/**
 * The MongoDB adapter: init picks a write concern, checks and rewrites the
 * connection URL; every operation builds its documents (the record, the
 * query, the $set update, the projection), sends one request inside a
 * requestStart/requestDone pair and turns the server's answer into a status.
 *
 * The driver is an abstract value, `Server`: the last-error document a
 * write leaves, what findOne finds, and what a find cursor yields.  Every
 * exception the driver raises is caught by the adapter and becomes status 1.
 */
module MongoDb {
  import opened Records

  // ---------------------------------------------------------------------
  // Documents

  /** A BSON value as the adapter meets it. */
  datatype Bson =
    | BStr(str: string)
    | BInt(n: int)            // a java.lang.Integer
    | BBool(b: bool)
    | BNull
    | BDoc(doc: map<string, Bson>)

  type Document = map<string, Bson>

  /** The write concerns of the driver (WriteConcern.NONE, NORMAL and STRICT). */
  datatype WriteConcern = WcNone | WcNormal | WcStrict

  /** A record's fields as string values of a document. */
  function Strings(values: Record): (d: Document)
    ensures d.Keys == values.Keys
    ensures forall f :: f in values ==> d[f] == BStr(values[f])
  {
    map f | f in values :: BStr(values[f])
  }

  /** The string-valued fields of a document, as a record. */
  function StringFields(d: Document): (r: Record)
    ensures r.Keys == set f | f in d && d[f].BStr?
    ensures forall f :: f in r ==> d[f] == BStr(r[f])
  {
    map f | f in d && d[f].BStr? :: d[f].str
  }

  /** {_id: key}: the query of insert, read and update. */
  function IdQuery(key: string): (q: Document)
    ensures q.Keys == {"_id"} && q["_id"] == BStr(key)
  {
    map["_id" := BStr(key)]
  }

  /** insert's record: {_id: key}, then every field of `values` put over it. */
  function InsertDocument(key: string, values: Record): (d: Document)
    ensures d.Keys == values.Keys + {"_id"}
    ensures forall f :: f in values ==> d[f] == BStr(values[f])
    ensures "_id" !in values ==> d["_id"] == BStr(key)
  {
    IdQuery(key) + Strings(values)
  }

  /** update's change: {$set: fields}. */
  function SetUpdate(fields: Document): (u: Document)
    ensures u.Keys == {"$set"} && u["$set"] == BDoc(fields)
  {
    map["$set" := BDoc(fields)]
  }

  /** delete's query: {_id: key}, with "$atomic": true under the STRICT write concern. */
  function DeleteQuery(key: string, concern: WriteConcern): (q: Document)
    ensures "_id" in q && q["_id"] == BStr(key)
    ensures "$atomic" in q <==> concern == WcStrict
    ensures "$atomic" in q ==> q["$atomic"] == BBool(true)
    ensures q.Keys <= {"_id", "$atomic"}
  {
    if concern == WcStrict then IdQuery(key)["$atomic" := BBool(true)] else IdQuery(key)
  }

  /** scan's query: {_id: {$gte: startKey}}. */
  function ScanQuery(startKey: string): (q: Document)
    ensures q.Keys == {"_id"} && q["_id"].BDoc?
    ensures q["_id"].doc.Keys == {"$gte"} && q["_id"].doc["$gte"] == BStr(startKey)
  {
    map["_id" := BDoc(map["$gte" := BStr(startKey)])]
  }

  /** A projection naming `fields`: every field mapped to 1. */
  function Projection(fields: set<string>): (p: Document)
    ensures p.Keys == fields
    ensures forall f :: f in p ==> p[f] == BInt(1)
  {
    map f | f in fields :: BInt(1)
  }

  /** The projection read and scan pass: none when `fields` is null. */
  function ProjectionOf(fields: Option<set<string>>): Option<Document> {
    if fields.None? then None else Some(Projection(fields.value))
  }

  // ---------------------------------------------------------------------
  // Write concern and connection URL

  /**
   * init's choice of write concern: the exact strings "none", "strict" and
   * "normal"; any other value, or none, keeps the current one.
   */
  function WriteConcernFor(property: Option<string>, current: WriteConcern): (w: WriteConcern)
    ensures property == Some("none") ==> w == WcNone
    ensures property == Some("strict") ==> w == WcStrict
    ensures property == Some("normal") ==> w == WcNormal
    ensures property !in {Some("none"), Some("strict"), Some("normal")} ==> w == current
  {
    if property == Some("none") then WcNone
    else if property == Some("strict") then WcStrict
    else if property == Some("normal") then WcNormal
    else current
  }

  const MongoScheme: string := "mongodb://"

  predicate HasPrefix(s: string, prefix: string) {
    |prefix| <= |s| && s[..|prefix|] == prefix
  }

  /**
   * The address handed to the driver: a "mongodb://" URL loses its first ten
   * characters and gets "/" and the database appended; any other URL is used
   * as it is.
   */
  function NormalizeUrl(url: string, database: string): (address: string)
    ensures HasPrefix(url, MongoScheme) ==> MongoScheme + address == url + "/" + database
    ensures !HasPrefix(url, MongoScheme) ==> address == url
  {
    if HasPrefix(url, MongoScheme) then url[10..] + "/" + database else url
  }

  /** The mongodb.* properties init reads. */
  datatype Props = Props(url: Option<string>, database: Option<string>, writeConcern: Option<string>)

  datatype InitOutcome = Initialized | InitFailed  // InitFailed: DBException

  /** The address init connects to, or None when url or database is missing or empty. */
  function ConnectAddress(props: Props): (a: Option<string>)
    ensures a.None? <==> props.url in {None, Some("")} || props.database in {None, Some("")}
  {
    if props.url.None? || props.url.value == "" || props.database.None? || props.database.value == "" then None
    else Some(NormalizeUrl(props.url.value, props.database.value))
  }

  // ---------------------------------------------------------------------
  // The driver

  /** What the adapter asks of a collection. */
  datatype Request =
    | InsertDoc(collection: string, doc: Document, concern: WriteConcern)
    | UpdateDoc(collection: string, query: Document, update: Document, concern: WriteConcern)
    | RemoveDoc(collection: string, query: Document)
    | FindOneDoc(collection: string, query: Document, projection: Option<Document>)
    | FindDocs(collection: string, query: Document, projection: Option<Document>, limit: int)

  /** The documents a find cursor yields before it is exhausted or raises. */
  datatype Cursor = Cursor(docs: seq<Document>, raises: bool)

  /**
   * The server as the driver reports it.  lastError: the getLastError
   * document after a write (None: the write or getLastError raised).
   * findOne: None when it raised, Some(None) when nothing matched.
   */
  datatype Server = Server(
    lastError: Request -> Option<Document>,
    findOne: Request -> Option<Option<Document>>,
    find: Request -> Cursor)

  /** The calls on the driver's DB object, in order. */
  datatype Call = RequestStart | Send(request: Request) | RequestDone

  /** requestStart, the one request, requestDone: what every operation does once it has a DB. */
  function Session(request: Request): seq<Call> {
    [RequestStart, Send(request), RequestDone]
  }

  /** insert's test: (Boolean) get("ok") is true and get("err") is null. */
  predicate InsertAcknowledged(lastError: Document) {
    && "ok" in lastError && lastError["ok"] == BBool(true)
    && ("err" !in lastError || lastError["err"] == BNull)
  }

  /** update's and delete's test: (Integer) get("n") == 1. */
  predicate OneAffected(lastError: Document) {
    "n" in lastError && lastError["n"] == BInt(1)
  }

  /**
   * The status of a write: 0 when the last-error document passes the test;
   * 1 when it fails it, when a cast or an unboxing raises, or when the write raised.
   */
  function WriteStatus(lastError: Option<Document>, passes: Document -> bool): (s: Status)
    ensures s.Ok? <==> lastError.Some? && passes(lastError.value)
    ensures s.Ok? || s.Failed?
    ensures s.Code() == if lastError.Some? && passes(lastError.value) then 0 else 1
  {
    if lastError.Some? && passes(lastError.value) then Ok else Failed
  }

  // ---------------------------------------------------------------------
  // Loops that build documents

  /** update's loop: put every field of `values` into `fieldsToSet`. */
  method FieldsToSet(values: Record) returns (fieldsToSet: Document)
    ensures fieldsToSet == Strings(values)
  {
    fieldsToSet := map[];
    var pending := values.Keys;
    while pending != {}
      invariant pending <= values.Keys
      invariant fieldsToSet.Keys == values.Keys - pending
      invariant forall f :: f in fieldsToSet ==> fieldsToSet[f] == BStr(values[f])
      decreases pending
    {
      var f :| f in pending;
      fieldsToSet := fieldsToSet[f := BStr(values[f])];
      pending := pending - {f};
    }
  }

  /** read's and scan's loop: put every requested field into `fieldsToReturn` with value 1. */
  method FieldsToReturn(fields: set<string>) returns (fieldsToReturn: Document)
    ensures fieldsToReturn == Projection(fields)
  {
    fieldsToReturn := map[];
    var pending := fields;
    while pending != {}
      invariant pending <= fields
      invariant fieldsToReturn.Keys == fields - pending
      invariant forall f :: f in fieldsToReturn ==> fieldsToReturn[f] == BInt(1)
      decreases pending
    {
      var f :| f in pending;
      fieldsToReturn := fieldsToReturn[f := BInt(1)];
      pending := pending - {f};
    }
  }

  method BuildProjection(fields: Option<set<string>>) returns (projection: Option<Document>)
    ensures projection == ProjectionOf(fields)
  {
    if fields.None? {
      return None;
    }
    var p := FieldsToReturn(fields.value);
    projection := Some(p);
  }

  // ---------------------------------------------------------------------
  // The adapter

  class MongoDbClient {
    /** The address the driver was opened on; None while there is no Mongo object. */
    var mongo: Option<string>
    var writeConcern: WriteConcern
    var database: Option<string>

    /** The field initialisers: no driver yet, write concern NORMAL. */
    constructor ()
      ensures mongo == None && writeConcern == WcNormal && database == None
    {
      mongo, writeConcern, database := None, WcNormal, None;
    }

    /**
     * init: `database` and `writeConcern` are assigned before the URL is
     * checked; `opens` says whether the driver accepts an address.
     */
    method Init(props: Props, opens: string -> bool) returns (outcome: InitOutcome)
      modifies this
      ensures database == props.database
      ensures writeConcern == WriteConcernFor(props.writeConcern, old(writeConcern))
      ensures outcome == Initialized <==> ConnectAddress(props).Some? && opens(ConnectAddress(props).value)
      ensures outcome == Initialized ==> mongo == ConnectAddress(props)
      ensures outcome == InitFailed ==> mongo == old(mongo)
    {
      var url := props.url;
      database := props.database;
      var writeConcernType := props.writeConcern;
      if writeConcernType == Some("none") {
        writeConcern := WcNone;
      } else if writeConcernType == Some("strict") {
        writeConcern := WcStrict;
      } else if writeConcernType == Some("normal") {
        writeConcern := WcNormal;
      }
      if url.None? || url.value == "" || database.None? || database.value == "" {
        return InitFailed;
      }
      var address := url.value;
      if |address| >= 10 && address[..10] == MongoScheme {
        address := address[10..] + "/" + database.value;
      }
      if !opens(address) {
        return InitFailed;
      }
      mongo := Some(address);
      outcome := Initialized;
    }

    /** insert: `values` put over {_id: key}, sent with the client's write concern. */
    method Insert(server: Server, table: string, key: string, values: Record)
      returns (status: Status, calls: seq<Call>)
      ensures mongo.None? ==> status == Failed && calls == []
      ensures mongo.Some? ==>
                var request := InsertDoc(table, InsertDocument(key, values), writeConcern);
                && calls == Session(request)
                && status == WriteStatus(server.lastError(request), InsertAcknowledged)
    {
      if mongo.None? {
        return Failed, [];
      }
      calls := [RequestStart];
      var r := IdQuery(key) + Strings(values);
      var request := InsertDoc(table, r, writeConcern);
      calls := calls + [Send(request)];
      status := WriteStatus(server.lastError(request), InsertAcknowledged);
      calls := calls + [RequestDone];
    }

    /** update: {$set: values} on {_id: key}, sent with the client's write concern. */
    method Update(server: Server, table: string, key: string, values: Record)
      returns (status: Status, calls: seq<Call>)
      ensures mongo.None? ==> status == Failed && calls == []
      ensures mongo.Some? ==>
                var request := UpdateDoc(table, IdQuery(key), SetUpdate(Strings(values)), writeConcern);
                && calls == Session(request)
                && status == WriteStatus(server.lastError(request), OneAffected)
    {
      if mongo.None? {
        return Failed, [];
      }
      calls := [RequestStart];
      var fieldsToSet := FieldsToSet(values);
      var u := map["$set" := BDoc(fieldsToSet)];
      var request := UpdateDoc(table, IdQuery(key), u, writeConcern);
      calls := calls + [Send(request)];
      status := WriteStatus(server.lastError(request), OneAffected);
      calls := calls + [RequestDone];
    }

    /** delete: the remove carries no write concern of its own. */
    method Delete(server: Server, table: string, key: string)
      returns (status: Status, calls: seq<Call>)
      ensures mongo.None? ==> status == Failed && calls == []
      ensures mongo.Some? ==>
                var request := RemoveDoc(table, DeleteQuery(key, writeConcern));
                && calls == Session(request)
                && status == WriteStatus(server.lastError(request), OneAffected)
    {
      if mongo.None? {
        return Failed, [];
      }
      calls := [RequestStart];
      var q := IdQuery(key);
      if writeConcern == WcStrict {
        q := q["$atomic" := BBool(true)];
      }
      var request := RemoveDoc(table, q);
      calls := calls + [Send(request)];
      status := WriteStatus(server.lastError(request), OneAffected);
      calls := calls + [RequestDone];
    }

    /**
     * read: the document found is merged into `result` as it is (its _id
     * included); `fields` is None for null.
     */
    method Read(server: Server, table: string, key: string, fields: Option<set<string>>, result: Document)
      returns (status: Status, newResult: Document, calls: seq<Call>)
      ensures mongo.None? ==> status == Failed && newResult == result && calls == []
      ensures mongo.Some? ==>
                var request := FindOneDoc(table, IdQuery(key), ProjectionOf(fields));
                && calls == Session(request)
                && (status == Ok <==> server.findOne(request).Some? && server.findOne(request).value.Some?)
                && (status == Ok || status == Failed)
                && newResult == if status == Ok then result + server.findOne(request).value.value else result
    {
      newResult := result;
      if mongo.None? {
        return Failed, result, [];
      }
      calls := [RequestStart];
      var projection := BuildProjection(fields);
      var request := FindOneDoc(table, IdQuery(key), projection);
      calls := calls + [Send(request)];
      var queryResult := server.findOne(request);
      if queryResult.None? {
        status := Failed;
      } else if queryResult.value.Some? {
        newResult := result + queryResult.value.value;
        status := Ok;
      } else {
        status := Failed;
      }
      calls := calls + [RequestDone];
    }

    /**
     * scan: every document the cursor yields is appended to `result` in
     * cursor order, also those yielded before the cursor raises.
     */
    method Scan(server: Server, table: string, startKey: string, recordCount: int, fields: Option<set<string>>,
                result: seq<Document>)
      returns (status: Status, newResult: seq<Document>, calls: seq<Call>)
      ensures mongo.None? ==> status == Failed && newResult == result && calls == []
      ensures mongo.Some? ==>
                var request := FindDocs(table, ScanQuery(startKey), ProjectionOf(fields), recordCount);
                && calls == Session(request)
                && newResult == result + server.find(request).docs
                && (status == Ok <==> !server.find(request).raises)
                && (status == Ok || status == Failed)
    {
      newResult := result;
      if mongo.None? {
        return Failed, result, [];
      }
      calls := [RequestStart];
      var scanRange := map["$gte" := BStr(startKey)];
      var q := map["_id" := BDoc(scanRange)];
      var projection := BuildProjection(fields);
      var request := FindDocs(table, q, projection, recordCount);
      calls := calls + [Send(request)];
      var cursor := server.find(request);
      var i := 0;
      while i < |cursor.docs|
        invariant 0 <= i <= |cursor.docs|
        invariant newResult == result + cursor.docs[..i]
      {
        newResult := newResult + [cursor.docs[i]];
        i := i + 1;
      }
      assert cursor.docs[..i] == cursor.docs;
      status := if cursor.raises then Failed else Ok;
      calls := calls + [RequestDone];
    }
  }

  // ---------------------------------------------------------------------
  // Properties

  /**
   * From the default NORMAL, "none" selects NONE, "strict" selects STRICT and
   * every other value, absent or differently spelt, leaves NORMAL.
   */
  lemma WriteConcernSelection(property: Option<string>)
    ensures WriteConcernFor(property, WcNormal) == WcNone <==> property == Some("none")
    ensures WriteConcernFor(property, WcNormal) == WcStrict <==> property == Some("strict")
    ensures WriteConcernFor(property, WcNormal) == WcNormal <==> property != Some("none") && property != Some("strict")
  {
  }

  /** Any string other than the three exact names, in any spelling, keeps the current write concern. */
  lemma WriteConcernOtherKeeps(s: string, current: WriteConcern)
    requires s != "none" && s != "strict" && s != "normal"
    ensures WriteConcernFor(Some(s), current) == current
  {
  }

  /** Examples: differently capitalised names are not recognised. */
  lemma WriteConcernCaseSensitive(current: WriteConcern)
    ensures WriteConcernFor(Some("STRICT"), current) == current
    ensures WriteConcernFor(Some("None"), current) == current
  {
    assert "STRICT"[1] != "strict"[1];
    assert "None"[0] != "none"[0];
  }

  /** A "mongodb://" URL becomes host, "/" and database: the hard-coded ten is the scheme's length. */
  lemma {:induction false} NormalizeSchemeUrl(rest: string, database: string)
    ensures NormalizeUrl(MongoScheme + rest, database) == rest + "/" + database
  {
    var url := MongoScheme + rest;
    assert url[..|MongoScheme|] == MongoScheme;
    assert url[10..] == rest;
  }

  lemma NormalizeOtherUrl(url: string, database: string)
    requires !HasPrefix(url, MongoScheme)
    ensures NormalizeUrl(url, database) == url
  {
  }

  /** init connects to host/database for "mongodb://host" and a non-empty database. */
  lemma {:induction false} InitAddress(host: string, database: string, writeConcern: Option<string>)
    requires database != ""
    ensures ConnectAddress(Props(Some(MongoScheme + host), Some(database), writeConcern)) == Some(host + "/" + database)
  {
    NormalizeSchemeUrl(host, database);
  }

  /** Reading the string fields back from a record's document gives the record. */
  lemma {:induction false} StringsRoundTrip(values: Record)
    ensures StringFields(Strings(values)) == values
  {
    var r := StringFields(Strings(values));
    assert r.Keys == values.Keys;
  }

  /**
   * Read back as strings, the inserted document is the record with its key
   * under "_id", unless the record has an "_id" field of its own, which wins.
   */
  lemma {:induction false} InsertDocumentRoundTrip(key: string, values: Record)
    ensures StringFields(InsertDocument(key, values)) == map["_id" := key] + values
  {
    var r := StringFields(InsertDocument(key, values));
    var expected := map["_id" := key] + values;
    assert r.Keys == expected.Keys;
    forall f | f in r
      ensures r[f] == expected[f]
    {
      if f in values {
        assert InsertDocument(key, values)[f] == BStr(values[f]);
      }
    }
  }

  /** The delete query is {_id: key} itself exactly when the write concern is not STRICT. */
  lemma DeleteQueryIsIdQuery(key: string, concern: WriteConcern)
    ensures DeleteQuery(key, concern) == IdQuery(key) <==> concern != WcStrict
  {
    if concern == WcStrict {
      assert "$atomic" !in IdQuery(key);
    }
  }

  /**
   * The last-error tests as the casts decide them: a missing field, or one of
   * another type than the cast expects, fails the test like a wrong value.
   */
  lemma LastErrorTests(err: Bson)
    ensures InsertAcknowledged(map["ok" := BBool(true)])
    ensures InsertAcknowledged(map["ok" := BBool(true), "err" := BNull])
    ensures err != BNull ==> !InsertAcknowledged(map["ok" := BBool(true), "err" := err])
    ensures !InsertAcknowledged(map["ok" := BBool(false)]) && !InsertAcknowledged(map["ok" := BInt(1)])
    ensures !InsertAcknowledged(map["err" := BNull])
    ensures OneAffected(map["n" := BInt(1)])
    ensures !OneAffected(map[]) && !OneAffected(map["n" := BInt(0)]) && !OneAffected(map["n" := BStr("1")])
  {
  }
}
