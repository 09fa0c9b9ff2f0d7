/**
 * How the pieces fit: what `log` writes is what the view indexes, what a
 * query projects and what a stream forwards.
 */
module EndToEnd {
  import opened Wrappers
  import opened Json
  import opened Client
  import opened WritePath
  import opened Query
  import opened ChangeStream

  /** The `byTimestamp` view indexes every written log under its write time, and never its own design document. */
  lemma WrittenLogIsIndexed(meta: Params, msg: string, level: string, now: Instant)
    ensures IndexKey(LogDocument(meta, msg, level, now)) == Some(Time(now))
    ensures IndexKey(LogsDesign) == None
  {
  }

  /** Asking for `fields: ['timestamp']` leaves a written log with its timestamp and nothing else. */
  lemma {:induction false} TimestampOnlyProjection(meta: Params, msg: string, level: string, now: Instant)
    ensures Restrict(LogParams(meta, msg, level, now), ["timestamp"]) == map["timestamp" := Time(now)]
  {
    var r := Restrict(LogParams(meta, msg, level, now), ["timestamp"]);
    assert (set f | f in ["timestamp"]) == {"timestamp"};
    assert r.Keys == {"timestamp"};
  }

  /** A written log arriving on the change feed is forwarded once, carrying its message and level. */
  lemma {:induction false} WrittenLogIsStreamed(meta: Params, msg: string, level: string, now: Instant)
    ensures var f := Forward(Change(false, Some(LogDocument(meta, msg, level, now))));
      && f == Some(Obj(LogParams(meta, msg, level, now)))
      && Member(f.value.fields, "message") == Str(msg)
      && Member(f.value.fields, "level") == Str(level)
  {
    ForwardFiltersToLogs(LogEntry("log", LogParams(meta, msg, level, now)), false, "", map[]);
  }
}
