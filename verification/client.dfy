/**
 * The CouchDB client the transport talks to, as an abstract interface: the
 * calls it can be asked to make, the documents it stores and the replies it
 * gives. Replies are inputs of the model; the transport records each call.
 */
module Client {
  import opened Wrappers
  import opened Json

  /** Any error the client reports (unreachable store, non-2xx reply, ...). */
  datatype StoreError = StoreError(reason: string)

  /** What a client callback receives: `(err)` or `(null, value)`. */
  datatype Reply<T> = Failed(error: StoreError) | Replied(value: T)

  /** The body of a database-info reply; `update_seq` is the tip of the change sequence. */
  datatype DbInfo = DbInfo(updateSeq: Option<nat>)

  /** The one view the transport installs, in terms of what its map function emits. */
  datatype ViewDef = EmitTimestampOfResource(resource: string, keyField: string)

  /** A document as the transport writes it: `{resource, params}`. */
  datatype LogEntry = LogEntry(resource: string, params: Params)

  datatype StoredDoc =
    | LogDoc(entry: LogEntry)
    | DesignDoc(id: string, views: map<string, ViewDef>)
    | OtherDoc(fields: Params)   // any other document the database may hold

  const DesignId := "_design/Logs"
  const ViewName := "byTimestamp"

  /**
   * The design document inserted by view provisioning: its `byTimestamp` map
   * function emits `(doc.params.timestamp, doc)` for every `resource === 'log'` document.
   */
  const LogsDesign := DesignDoc(DesignId, map[ViewName := EmitTimestampOfResource("log", "timestamp")])

  /** The native range query of a view request. */
  datatype ViewQuery = ViewQuery(
    limit: Option<int>,
    skip: Option<int>,
    descending: bool,          // `false` stands for an absent property
    startkey: Option<Instant>,
    endkey: Option<Instant>)

  /** The options of a change-feed subscription. */
  datatype FeedOptions = FeedOptions(includeDocs: bool, feed: string, style: string, descending: bool, since: int)

  /** One notification of the change feed. */
  datatype Change = Change(deleted: bool, doc: Option<StoredDoc>)

  /** A call the transport makes on the client. */
  datatype Call =
    | Insert(doc: StoredDoc)
    | Info
    | Create
    | Get(id: string)
    | View(design: string, view: string, query: ViewQuery)
    | Follow(options: FeedOptions)

  /** No call occurs twice. */
  predicate Distinct(calls: seq<Call>) {
    forall i, j :: 0 <= i < j < |calls| ==> calls[i] != calls[j]
  }

  /** The key under which the `byTimestamp` view indexes a document, if it does. */
  function IndexKey(doc: StoredDoc): (k: Option<Value>)
    ensures doc.DesignDoc? ==> k.None?
    ensures doc.LogDoc? ==> (k.Some? <==> doc.entry.resource == "log")
    ensures doc.LogDoc? && k.Some? ==> k.value == Member(doc.entry.params, "timestamp")
    ensures doc.OtherDoc? && k.Some? ==> Member(doc.fields, "resource") == Str("log") && Member(doc.fields, "params") != Null
  {
    match doc
    case LogDoc(e) => if e.resource == "log" then Some(Member(e.params, "timestamp")) else None
    case DesignDoc(_, _) => None
    case OtherDoc(f) =>
      if Member(f, "resource") == Str("log") then
        match Member(f, "params")
        case Null => None                  // reading `.timestamp` of undefined throws: not emitted
        case Obj(p) => Some(Member(p, "timestamp"))
        case _ => Some(Null)
      else None
  }
}
