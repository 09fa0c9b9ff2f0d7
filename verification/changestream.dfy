/**
 * `stream`: resolve the offset the change feed starts from, and forward the
 * feed's changes that carry log parameters as `'log'` events.
 */
module ChangeStream {
  import opened Wrappers
  import opened Json
  import opened Client

  /** The caller's stream options object; `stream` rewrites its `start` in place. */
  class StreamOptions {
    var start: Option<int>

    constructor (start: Option<int>)
      ensures this.start == start
    {
      this.start := start;
    }
  }

  /**
   * The offset the feed follows from: `-1` counts as unset, and an unset start
   * becomes `info.update_seq || 0`. `None` when reading `update_seq` of a
   * falsy info body would throw.
   */
  function ResolveStart(start: Option<int>, info: Option<DbInfo>): (r: Option<int>)
    ensures start.Some? && start.value != -1 ==> r == start
    ensures (start.None? || start == Some(-1)) && info.Some? ==> r == Some(info.value.updateSeq.GetOr(0))
    ensures r.None? <==> (start.None? || start == Some(-1)) && info.None?
  {
    var s := if start == Some(-1) then None else start;
    if s.Some? then s
    else if info.None? then None
    else Some(info.value.updateSeq.GetOr(0))
  }

  /**
   * Since `stream` writes the resolved offset back into its options, opening
   * another stream with the same options object resumes from the same offset,
   * whatever the database tip has moved to.
   */
  lemma ReopenResumes(start: Option<int>, info: Option<DbInfo>, later: Option<DbInfo>)
    requires ResolveStart(start, info).Some?
    ensures ResolveStart(ResolveStart(start, info), later) == ResolveStart(start, info)
  {
  }

  /** An unset start follows from the tip, so earlier writes are not replayed. */
  lemma UnsetStartFollowsTip(tip: nat)
    ensures ResolveStart(None, Some(DbInfo(Some(tip)))) == Some(tip)
    ensures ResolveStart(Some(-1), Some(DbInfo(Some(tip)))) == Some(tip)
    ensures ResolveStart(Some(-1), Some(DbInfo(None))) == Some(0)
    ensures ResolveStart(None, Some(DbInfo(None))) == Some(0)
    ensures ResolveStart(Some(0), None) == Some(0)
  {
  }

  /** `change.doc.params` of a document. */
  function ParamsOf(doc: StoredDoc): Value {
    match doc
    case LogDoc(e) => Obj(e.params)
    case DesignDoc(_, _) => Null
    case OtherDoc(f) => Member(f, "params")
  }

  /** The payload of the `'log'` event a change produces, if it produces one. */
  function Forward(c: Change): (r: Option<Value>)
    ensures r.Some? ==> !c.deleted && c.doc.Some? && r.value == ParamsOf(c.doc.value) && Truthy(r.value)
    ensures !c.deleted && c.doc.Some? && Truthy(ParamsOf(c.doc.value)) ==> r.Some?
  {
    if !c.deleted && c.doc.Some? && Truthy(ParamsOf(c.doc.value)) then Some(ParamsOf(c.doc.value))
    else None
  }

  /**
   * A log document reaching the feed is forwarded with exactly its params;
   * the design document and deletions are filtered out.
   */
  lemma ForwardFiltersToLogs(e: LogEntry, deleted: bool, id: string, views: map<string, ViewDef>)
    ensures Forward(Change(false, Some(LogDoc(e)))) == Some(Obj(e.params))
    ensures Forward(Change(deleted, Some(DesignDoc(id, views)))) == None
    ensures Forward(Change(true, Some(LogDoc(e)))) == None
    ensures Forward(Change(deleted, None)) == None
  {
  }

  datatype StreamEvent = LogEvent(params: Value) | StreamError(error: StoreError)

  /** The stream `stream` returns, with the change feed's handlers attached. */
  class LogStream {
    /** The offset of the change feed it follows; `None` while there is no feed. */
    var since: Option<int>
    /** The events emitted on it, in order. */
    var emitted: seq<StreamEvent>

    constructor ()
      ensures since == None && emitted == []
    {
      since := None;
      emitted := [];
    }

    /** The feed's `'change'` handler: forward the document's `params` of a live change that has them. */
    method OnChange(c: Change)
      requires since.Some?
      modifies this
      ensures since == old(since)
      ensures emitted == old(emitted) + (if Forward(c).Some? then [LogEvent(Forward(c).value)] else [])
    {
      if !c.deleted && c.doc.Some? && Truthy(ParamsOf(c.doc.value)) {
        emitted := emitted + [LogEvent(ParamsOf(c.doc.value))];
      }
    }

    /** The feed's `'error'` handler. */
    method OnError(e: StoreError)
      requires since.Some?
      modifies this
      ensures since == old(since) && emitted == old(emitted) + [StreamError(e)]
    {
      emitted := emitted + [StreamError(e)];
    }
  }
}
