/**
 * `query`: translate the abstract query options into the view's native range
 * query, then unwrap the rows to their `params` and project them on `fields`.
 */
module Query {
  import opened Wrappers
  import opened Json
  import opened Client
  import opened Provision

  /** Query options, as `normalizeQuery` leaves them (that step is the identity here). */
  datatype QueryOptions = QueryOptions(
    rows: Option<int>,
    start: Option<int>,
    order: Option<string>,
    from: Option<Instant>,
    until: Option<Instant>,
    fields: Option<seq<string>>)

  predicate IsDescending(o: QueryOptions) {
    o.order == Some("desc")
  }

  /** The native query `query` hands to the view. */
  function Translate(o: QueryOptions): (q: ViewQuery)
    ensures q.limit == (if o.rows.Some? && o.rows.value != 0 then o.rows else None)
    ensures q.skip == (if o.start.Some? && o.start.value != 0 then o.start else None)
    ensures q.descending <==> IsDescending(o)
    ensures q.descending ==> q.startkey == o.until && q.endkey == o.from
    ensures !q.descending ==> q.startkey == o.from && q.endkey == o.until
  {
    var desc := IsDescending(o);
    ViewQuery(
      if o.rows.Some? && o.rows.value != 0 then o.rows else None,
      if o.start.Some? && o.start.value != 0 then o.start else None,
      desc,
      if desc then o.until else o.from,
      if desc then o.from else o.until)
  }

  /** The time window the options ask for: from `from` to `until`, each side open when absent. */
  predicate InWindow(o: QueryOptions, t: Instant) {
    (o.from.None? || o.from.value <= t) && (o.until.None? || t <= o.until.value)
  }

  /**
   * The keys a view range query visits: ascending from `startkey` up to
   * `endkey`, or, when descending, from `startkey` down to `endkey`.
   */
  predicate Visits(q: ViewQuery, t: Instant) {
    if !q.descending then
      (q.startkey.None? || q.startkey.value <= t) && (q.endkey.None? || t <= q.endkey.value)
    else
      (q.startkey.None? || t <= q.startkey.value) && (q.endkey.None? || q.endkey.value <= t)
  }

  /**
   * Swapping the keys for a descending query keeps the window: the translated
   * query visits exactly the instants between `from` and `until`, in either order.
   */
  lemma TranslateKeepsWindow(o: QueryOptions, t: Instant)
    ensures Visits(Translate(o), t) <==> InWindow(o, t)
  {
  }

  /** `start: 0` is falsy, so it asks for no skip; a descending query inverts its bounds. */
  lemma DescendingSwapsBounds(a: Instant, b: Instant)
    ensures Translate(QueryOptions(None, Some(0), Some("desc"), Some(a), Some(b), None))
         == ViewQuery(None, None, true, Some(b), Some(a))
  {
  }

  /** A document cut down to the keys listed in `fields`. */
  function Restrict(doc: Params, fields: seq<string>): (r: Params)
    ensures r.Keys == doc.Keys * (set f | f in fields)
    ensures forall k :: k in r ==> r[k] == doc[k]
  {
    map k | k in doc && k in fields :: doc[k]
  }

  /** Projecting twice is projecting once. */
  lemma RestrictIdempotent(doc: Params, fields: seq<string>)
    ensures Restrict(Restrict(doc, fields), fields) == Restrict(doc, fields)
  {
  }

  /** The results: each row's `params`, projected on `fields` when given, in row order. */
  function Present(rows: seq<LogEntry>, fields: Option<seq<string>>): (docs: seq<Params>)
    ensures |docs| == |rows|
    ensures forall i :: 0 <= i < |rows| ==>
      docs[i] == if fields.Some? then Restrict(rows[i].params, fields.value) else rows[i].params
  {
    seq(|rows|, i requires 0 <= i < |rows| =>
      if fields.Some? then Restrict(rows[i].params, fields.value) else rows[i].params)
  }

  /**
   * The in-place projection: for every document, walk its own keys and
   * delete each one that `fields` does not list.
   */
  method Project(docs: array<Params>, fields: seq<string>)
    modifies docs
    ensures forall i :: 0 <= i < docs.Length ==> docs[i] == Restrict(old(docs[i]), fields)
  {
    for i := 0 to docs.Length
      invariant forall j :: 0 <= j < i ==> docs[j] == Restrict(old(docs[j]), fields)
      invariant forall j :: i <= j < docs.Length ==> docs[j] == old(docs[j])
    {
      var doc := docs[i];
      ghost var original := doc;
      var keys := doc.Keys;
      while keys != {}
        invariant keys <= original.Keys
        invariant forall k :: k in doc <==> k in original && (k in keys || k in fields)
        invariant forall k :: k in doc ==> doc[k] == original[k]
        decreases keys
      {
        var key :| key in keys;
        if key !in fields {
          doc := doc - {key};
        }
        keys := keys - {key};
      }
      assert doc == Restrict(original, fields);
      docs[i] := doc;
    }
  }

  /** The calls one `query` makes and what its callback receives. */
  datatype QueryTrace = QueryTrace(calls: seq<Call>, result: Reply<seq<Params>>)

  /**
   * `query` on a transport whose view flag is `ensured`: provision first when
   * it is not set (stopping on an error), then one view request.
   */
  function QueryRun(ensured: bool, o: QueryOptions, provision: ProvisionReplies, reply: Reply<seq<LogEntry>>): (t: QueryTrace)
    ensures t.result.Replied? ==>
      && t.calls != [] && t.calls[|t.calls| - 1] == View(DesignId, ViewName, Translate(o))
      && reply.Replied? && |t.result.value| == |reply.value|
    ensures View(DesignId, ViewName, Translate(o)) in t.calls <==> ensured || Chain(provision).result.None?
  {
    var pre := EnsureStep(ensured, provision);
    if pre.result.Some? then QueryTrace(pre.calls, Failed(pre.result.value))
    else
      QueryTrace(
        pre.calls + [View(DesignId, ViewName, Translate(o))],
        match reply
        case Failed(e) => Failed(e)
        case Replied(rows) => Replied(Present(rows, o.fields)))
  }

  /**
   * What `query` promises: the view is checked first and a provisioning error
   * is passed on with no view request; otherwise exactly one view request with
   * the translated query is made, its error is passed on, and its rows come
   * back as their `params`, in order, each projected on `fields`.
   */
  lemma QueryRunContract(ensured: bool, o: QueryOptions, provision: ProvisionReplies, reply: Reply<seq<LogEntry>>)
    ensures var t := QueryRun(ensured, o, provision, reply);
      && (ensured ==> t.calls == [View(DesignId, ViewName, Translate(o))])
      && (!ensured ==> t.calls[..|Chain(provision).calls|] == Chain(provision).calls)
      && (!ensured && Chain(provision).result.None? ==>
            t.calls == Chain(provision).calls + [View(DesignId, ViewName, Translate(o))])
      && (!ensured && Chain(provision).result.Some? ==>
            t.calls == Chain(provision).calls && t.result == Failed(Chain(provision).result.value))
      && (ensured || Chain(provision).result.None? ==>
            && t.calls[|t.calls| - 1] == View(DesignId, ViewName, Translate(o))
            && (reply.Failed? ==> t.result == Failed(reply.error))
            && (reply.Replied? ==>
                 && t.result.Replied? && |t.result.value| == |reply.value|
                 && (forall i :: 0 <= i < |reply.value| && o.fields.None? ==>
                      t.result.value[i] == reply.value[i].params)
                 && (forall i :: 0 <= i < |reply.value| && o.fields.Some? ==>
                      t.result.value[i] == Restrict(reply.value[i].params, o.fields.value))))
  {
  }
}
