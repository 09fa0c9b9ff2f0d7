/**
 * The write path of `log`: the document it persists and what it reports
 * back, through the caller's callback and through the transport's events.
 */
module WritePath {
  import opened Wrappers
  import opened Json
  import opened Client

  /** An event the transport emits. */
  datatype Event = ErrorEvent(error: StoreError) | Logged(level: string, message: string)

  /** The arguments of one callback invocation: `(err, ok)`. */
  datatype Ack = Ack(error: Option<StoreError>, ok: bool)

  /**
   * What one completed insert produces: events emitted at once, events
   * deferred to the next turn of the event loop, and the callback's arguments
   * (`None` when no callback was given).
   */
  datatype Outcome = Outcome(emitted: seq<Event>, deferred: seq<Event>, ack: Option<Ack>)

  /** `level || 'info'`. */
  function LevelOf(level: Option<string>): (l: string)
    ensures l != ""
    ensures level.Some? && level.value != "" ==> l == level.value
    ensures level.None? || level.value == "" ==> l == "info"
  {
    Or(level, "info")
  }

  /**
   * The `params` of the persisted document: the (decycled, shallow-copied)
   * metadata, with `timestamp`, `message` and `level` overwriting any keys
   * of the same name.
   */
  function LogParams(meta: Params, msg: string, level: string, now: Instant): (p: Params)
    ensures p.Keys == meta.Keys + {"timestamp", "message", "level"}
    ensures p["timestamp"] == Time(now) && p["message"] == Str(msg) && p["level"] == Str(level)
    ensures forall k :: k in meta && k !in {"timestamp", "message", "level"} ==> p[k] == meta[k]
  {
    meta["timestamp" := Time(now)]["message" := Str(msg)]["level" := Str(level)]
  }

  function LogDocument(meta: Params, msg: string, level: string, now: Instant): StoredDoc {
    LogDoc(LogEntry("log", LogParams(meta, msg, level, now)))
  }

  /** What the insert's reply leads to. */
  function InsertOutcome(reply: Option<StoreError>, level: string, msg: string, hasCallback: bool): (o: Outcome)
    ensures |o.emitted| + |o.deferred| == 1
    ensures o.ack.Some? <==> hasCallback
    ensures o.ack.Some? ==> o.ack.value.error == reply && (o.ack.value.ok <==> reply.None?)
  {
    match reply
    case Some(e) => Outcome([ErrorEvent(e)], [], if hasCallback then Some(Ack(Some(e), false)) else None)
    case None => Outcome([], [Logged(level, msg)], if hasCallback then Some(Ack(None, true)) else None)
  }

  /** A silent transport acknowledges at once. */
  function SilentOutcome(hasCallback: bool): Outcome {
    Outcome([], [], if hasCallback then Some(Ack(None, true)) else None)
  }

  /**
   * The two outcomes of an insert exclude each other: an error gives one
   * `'error'` event and `callback(err, false)`; success gives `callback(null,
   * true)` and one `'logged'` event, deferred. The callback runs exactly once
   * when given.
   */
  lemma InsertOutcomeExclusive(reply: Option<StoreError>, level: string, msg: string, hasCallback: bool)
    ensures var o := InsertOutcome(reply, level, msg, hasCallback);
      && |o.emitted| + |o.deferred| == 1
      && (o.ack.Some? <==> hasCallback)
      && (reply.Some? ==> o.emitted == [ErrorEvent(reply.value)] && o.deferred == [])
      && (reply.None? ==> o.emitted == [] && o.deferred == [Logged(level, msg)])
      && (forall ev :: ev in o.emitted ==> ev.ErrorEvent?)
      && (forall ev :: ev in o.deferred ==> ev.Logged?)
      && (o.ack.Some? ==> o.ack.value.error == reply && (o.ack.value.ok <==> reply.None?))
  {
  }

  /** Metadata cannot forge the stamped fields, and keeps everything else. */
  lemma StampedFieldsWin(meta: Params, msg: string, level: Option<string>, now: Instant)
    ensures var p := LogParams(meta, msg, LevelOf(level), now);
      && Member(p, "timestamp") == Time(now)
      && Member(p, "message") == Str(msg)
      && Truthy(Member(p, "level"))
      && (forall k :: k in meta ==> k in p)
      && |p| <= |meta| + 3
  {
    var p := LogParams(meta, msg, LevelOf(level), now);
    assert p.Keys == meta.Keys + {"timestamp", "message", "level"};
    assert |{"timestamp", "message", "level"}| == 3;
    assert |meta.Keys + {"timestamp", "message", "level"}| <= |meta.Keys| + 3;
  }
}
