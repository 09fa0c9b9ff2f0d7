/**
 * The CouchDB transport itself: the settings its constructor derives, and
 * `log`, `_ensureView`, the lazy `client` getter, `query` and `stream`, each
 * recording the client calls it makes. Client replies are parameters; the
 * callbacks a reply triggers run before the method returns.
 */
module Transport {
  import opened Wrappers
  import opened Json
  import opened Decimal
  import opened Config
  import opened Client
  import opened Provision
  import opened WritePath
  import opened Query
  import opened ChangeStream

  class Couchdb {
    const name: string
    const db: string
    const host: string
    const port: nat
    const url: string
    const auth: Option<Credentials>
    const secure: bool
    /** Set from the options by the base transport; suppresses every write. */
    var silent: bool
    /** `_ensuredView`: set before the provisioning chain's first call, never reset. */
    var ensuredView: bool
    /** Whether `_client` has been built by the `client` getter. */
    var clientBuilt: bool
    /** Every call made on the client, in order. */
    var calls: seq<Call>
    /** Events emitted on the transport, in order. */
    var events: seq<Event>
    /** Events scheduled with `setImmediate`, not yet emitted. */
    var deferred: seq<Event>

    /**
     * Building the client kicks off provisioning, and provisioning's first
     * call builds the client, so the two flags are always equal.
     */
    ghost predicate Valid()
      reads this
    {
      clientBuilt == ensuredView
    }

    constructor (options: Options)
      ensures Valid()
      ensures name == NameOf(options) && db == DbOf(options)
      ensures host == HostOf(options) && port == PortOf(options) && url == UrlOf(options)
      ensures secure == SecureOf(options) && auth == AuthOf(options)
      ensures silent == options.silent && !ensuredView
      ensures calls == [] && events == [] && deferred == []
    {
      silent := options.silent;
      name := Or(options.name, "couchdb");
      db := Or(options.db, Or(options.database, "winston"));
      var h := if HasHttpScheme(options.host) then options.host.value
               else "http://" + Or(options.host, "http://localhost");
      host := h;
      var p: nat := if options.port.Some? && options.port.value != 0 then options.port.value else 5984;
      port := p;
      url := h + ":" + Show(p);
      secure := StartsWithIgnoreCase(h, "https:") || options.ssl || options.secure;
      var a := options.auth;
      if options.user.Some? && options.user.value != "" {
        a := Some(Credentials(options.user.value, Or(options.pass, "")));
      }
      auth := a;
      ensuredView := false;
      clientBuilt := false;
      calls := [];
      events := [];
      deferred := [];
    }

    /** `_ensureView(callback)`: the value returned is what the callback receives. */
    method EnsureView(provision: ProvisionReplies) returns (err: Option<StoreError>)
      requires Valid()
      modifies this
      ensures Valid() && ensuredView
      ensures calls == old(calls) + EnsureStep(old(ensuredView), provision).calls
      ensures err == EnsureStep(old(ensuredView), provision).result
      ensures events == old(events) && deferred == old(deferred) && silent == old(silent)
    {
      if ensuredView {
        return None;
      }
      ensuredView := true;
      // checkDB: its `this.client` builds the client, whose own `_ensureView()` now returns at once
      clientBuilt := true;
      calls := calls + [Info];
      match provision.info {
        case Failed(e) =>
          return Some(e);
        case Replied(body) =>
          if body.None? {
            calls := calls + [Create];
            if provision.create.Some? {
              return provision.create;
            }
          }
      }
      // checkView
      calls := calls + [Get(DesignId)];
      if provision.get == Replied(true) {
        return None;
      }
      // save
      calls := calls + [Insert(LogsDesign)];
      err := provision.save;
    }

    /** The `client` getter: the first access builds the client and kicks off provisioning. */
    method EnsureClient(provision: ProvisionReplies)
      requires Valid()
      modifies this
      ensures Valid() && ensuredView
      ensures calls == old(calls) + EnsureStep(old(ensuredView), provision).calls
      ensures events == old(events) && deferred == old(deferred) && silent == old(silent)
    {
      if !clientBuilt {
        var ignored := EnsureView(provision);
      }
    }

    /**
     * `log(level, msg, meta, callback)`, with `meta` already decycled and the
     * clock reading `now`; the result is what the callback receives.
     */
    method Log(level: Option<string>, msg: string, meta: Params, hasCallback: bool, now: Instant,
               provision: ProvisionReplies, reply: Option<StoreError>) returns (ack: Option<Ack>)
      requires Valid()
      modifies this
      ensures Valid() && silent == old(silent)
      ensures old(silent) ==>
        && ack == SilentOutcome(hasCallback).ack
        && calls == old(calls) && ensuredView == old(ensuredView)
        && events == old(events) && deferred == old(deferred)
      ensures !old(silent) ==>
        var lvl := LevelOf(level);
        var o := InsertOutcome(reply, lvl, msg, hasCallback);
        && ensuredView
        && calls == old(calls) + EnsureStep(old(ensuredView), provision).calls
                    + [Insert(LogDocument(meta, msg, lvl, now))]
        && events == old(events) + o.emitted
        && deferred == old(deferred) + o.deferred
        && ack == o.ack
    {
      if silent {
        return if hasCallback then Some(Ack(None, true)) else None;
      }
      var lvl := if level.Some? && level.value != "" then level.value else "info";
      var params := meta;
      params := params["timestamp" := Time(now)];
      params := params["message" := Str(msg)];
      params := params["level" := Str(lvl)];
      EnsureClient(provision);
      calls := calls + [Insert(LogDoc(LogEntry("log", params)))];
      match reply {
        case Some(e) =>
          events := events + [ErrorEvent(e)];
          ack := if hasCallback then Some(Ack(Some(e), false)) else None;
        case None =>
          deferred := deferred + [Logged(lvl, msg)];
          ack := if hasCallback then Some(Ack(None, true)) else None;
      }
    }

    /** A later turn of the event loop: the `setImmediate` callbacks run. */
    method RunDeferred()
      requires Valid()
      modifies this
      ensures Valid() && events == old(events) + old(deferred) && deferred == []
      ensures calls == old(calls) && ensuredView == old(ensuredView) && silent == old(silent)
    {
      events := events + deferred;
      deferred := [];
    }

    /** `query(options, callback)`; the result is what the callback receives. */
    method Query(o: QueryOptions, provision: ProvisionReplies, reply: Reply<seq<LogEntry>>)
      returns (r: Reply<seq<Params>>)
      requires Valid()
      modifies this
      ensures Valid() && ensuredView
      ensures calls == old(calls) + QueryRun(old(ensuredView), o, provision, reply).calls
      ensures r == QueryRun(old(ensuredView), o, provision, reply).result
      ensures events == old(events) && deferred == old(deferred) && silent == old(silent)
    {
      if !ensuredView {
        var err := EnsureView(provision);
        if err.Some? {
          return Failed(err.value);
        }
        // the continuation runs `query` again, now with the flag set
      }
      var q := ViewQuery(None, None, false, None, None);
      if o.rows.Some? && o.rows.value != 0 {
        q := q.(limit := o.rows);
      }
      if o.start.Some? && o.start.value != 0 {
        q := q.(skip := o.start);
      }
      if o.order == Some("desc") {
        q := q.(descending := true);
        if o.from.Some? {
          q := q.(endkey := o.from);
        }
        if o.until.Some? {
          q := q.(startkey := o.until);
        }
      } else {
        if o.from.Some? {
          q := q.(startkey := o.from);
        }
        if o.until.Some? {
          q := q.(endkey := o.until);
        }
      }
      calls := calls + [View(DesignId, ViewName, q)];
      match reply {
        case Failed(e) =>
          r := Failed(e);
        case Replied(rows) =>
          var docs := new Params[|rows|](i requires 0 <= i < |rows| => rows[i].params);
          assert forall i :: 0 <= i < |rows| ==> docs[i] == rows[i].params;
          if o.fields.Some? {
            Project(docs, o.fields.value);
          }
          assert docs[..] == Present(rows, o.fields);
          r := Replied(docs[..]);
      }
    }

    /**
     * `stream(options)`, up to the moment the change feed is followed; the
     * feed's changes then reach the returned stream through its handlers.
     */
    method Stream(options: StreamOptions?, provision: ProvisionReplies, info: Reply<Option<DbInfo>>)
      returns (s: LogStream)
      requires Valid()
      modifies this, options
      ensures Valid() && ensuredView && fresh(s)
      ensures events == old(events) && deferred == old(deferred) && silent == old(silent)
      ensures info.Failed? ==>
        && s.since == None && s.emitted == [StreamError(info.error)]
        && calls == old(calls) + EnsureStep(old(ensuredView), provision).calls + [Info]
        && (options != null ==> options.start == old(options.start))
      ensures info.Replied? ==>
        var r := ResolveStart(if options == null then None else old(options.start), info.value);
        && s.since == r && s.emitted == []
        && (options != null ==> options.start == r)
        && calls == old(calls) + EnsureStep(old(ensuredView), provision).calls + [Info]
                    + (if r.Some? then [Follow(FeedOptions(true, "continuous", "main_only", false, r.value))] else [])
    {
      var opts: StreamOptions;
      if options == null {
        opts := new StreamOptions(None);
      } else {
        opts := options;
      }
      s := new LogStream();
      EnsureClient(provision);
      calls := calls + [Info];
      match info {
        case Failed(e) =>
          s.emitted := s.emitted + [StreamError(e)];
        case Replied(body) =>
          if opts.start == Some(-1) {
            opts.start := None;
          }
          if opts.start.None? {
            if body.None? {
              // reading `update_seq` of a falsy body throws: no feed is followed
              return;
            }
            opts.start := Some(body.value.updateSeq.GetOr(0));
          }
          calls := calls + [Follow(FeedOptions(true, "continuous", "main_only", false, opts.start.value))];
          s.since := opts.start;
      }
    }
  }
}
