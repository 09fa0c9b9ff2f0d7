/**
 * The view-provisioning chain of `_ensureView`: ask for the database info,
 * create the database when there is none, look for the `_design/Logs`
 * document and insert it when it is missing. The first error ends the chain
 * and is handed to the continuation.
 */
module Provision {
  import opened Wrappers
  import opened Client

  /** The client's replies to the chain's calls, in the order they would be asked. */
  datatype ProvisionReplies = ProvisionReplies(
    info: Reply<Option<DbInfo>>,   // `None`: an info body that is falsy
    create: Option<StoreError>,
    get: Reply<bool>,              // `bool`: whether the body is truthy
    save: Option<StoreError>)

  /** The calls one attempt issues and what it passes to its continuation. */
  datatype Trace = Trace(calls: seq<Call>, result: Option<StoreError>)

  /** `checkView` and `save`: get the design document, insert it unless found. */
  function CheckView(r: ProvisionReplies): Trace {
    if r.get == Replied(true) then Trace([Get(DesignId)], None)
    else Trace([Get(DesignId), Insert(LogsDesign)], r.save)
  }

  /** The position of each of the chain's calls in the order info, create, get, insert. */
  function Rank(c: Call): nat {
    match c
    case Info => 0
    case Create => 1
    case Get(_) => 2
    case Insert(_) => 3
    case _ => 4
  }

  /** The calls come in the chain's order: each one ranks above the calls before it. */
  predicate InChainOrder(calls: seq<Call>) {
    forall i, j :: 0 <= i < j < |calls| ==> Rank(calls[i]) < Rank(calls[j])
  }

  /** `checkDB` and the rest of the chain, on a transport whose flag was not yet set. */
  function Chain(r: ProvisionReplies): (t: Trace)
    ensures 1 <= |t.calls| <= 4 && t.calls[0] == Info
    ensures InChainOrder(t.calls)
    ensures t.result.Some? ==>
      || r.info == Failed(t.result.value)
      || (Create in t.calls && t.result == r.create)
      || (Insert(LogsDesign) in t.calls && t.result == r.save)
  {
    match r.info
    case Failed(e) => Trace([Info], Some(e))
    case Replied(body) =>
      if body.None? then
        if r.create.Some? then Trace([Info, Create], r.create)
        else var t := CheckView(r); Trace([Info, Create] + t.calls, t.result)
      else var t := CheckView(r); Trace([Info] + t.calls, t.result)
  }

  /** One `_ensureView` call: nothing at all once the flag is set. */
  function EnsureStep(ensured: bool, r: ProvisionReplies): (t: Trace)
    ensures ensured ==> t.calls == [] && t.result == None
    ensures !ensured ==> t.calls != [] && t.calls[0] == Info && InChainOrder(t.calls)
  {
    if ensured then Trace([], None) else Chain(r)
  }

  /** Successive `_ensureView` calls; the flag is set by the first and never reset. */
  function EnsureMany(ensured: bool, rs: seq<ProvisionReplies>): (ts: seq<Trace>)
    ensures |ts| == |rs|
    ensures rs != [] ==> ts[0] == EnsureStep(ensured, rs[0])
    ensures forall i :: 1 <= i < |ts| ==> ts[i] == Trace([], None)
    decreases |rs|
  {
    if rs == [] then [] else [EnsureStep(ensured, rs[0])] + EnsureMany(true, rs[1..])
  }

  function AllCalls(ts: seq<Trace>): seq<Call>
    decreases |ts|
  {
    if ts == [] then [] else ts[0].calls + AllCalls(ts[1..])
  }

  /**
   * The chain's order and branches: info always first; create exactly when
   * info gave no body; get once the database is there; insert exactly when
   * get found nothing; each call at most once, in the order info, create,
   * get, insert.
   */
  lemma ChainOrder(r: ProvisionReplies)
    ensures var t := Chain(r);
      && t.calls != [] && t.calls[0] == Info
      && Distinct(t.calls)
      && InChainOrder(t.calls)
      && (Create in t.calls <==> r.info == Replied(None))
      && (Get(DesignId) in t.calls <==> r.info.Replied? && (r.info.value.None? ==> r.create.None?))
      && (Insert(LogsDesign) in t.calls <==> Get(DesignId) in t.calls && r.get != Replied(true))
      && (forall c :: c in t.calls ==> c in [Info, Create, Get(DesignId), Insert(LogsDesign)])
  {
  }

  /** The first error of info, create or insert reaches the continuation, and a lookup error does not. */
  lemma ChainErrors(r: ProvisionReplies)
    ensures r.info.Failed? ==> Chain(r).result == Some(r.info.error) && Chain(r).calls == [Info]
    ensures r.info == Replied(None) && r.create.Some? ==> Chain(r).result == r.create && |Chain(r).calls| == 2
    ensures Insert(LogsDesign) in Chain(r).calls ==> Chain(r).result == r.save
    ensures Chain(r).result.Some? ==>
      || r.info == Failed(Chain(r).result.value)
      || (Create in Chain(r).calls && Chain(r).result == r.create)
      || (Insert(LogsDesign) in Chain(r).calls && Chain(r).result == r.save)
    ensures Get(DesignId) in Chain(r).calls && r.get == Replied(true) ==> Chain(r).result == None
    ensures r.get.Failed? && r.info.Replied? && r.create.None? ==> Insert(LogsDesign) in Chain(r).calls
  {
  }

  /** The database and design document as a store holds them. */
  datatype StoreState = StoreState(dbExists: bool, designExists: bool)

  /** What one call does to the store. */
  function Effect(s: StoreState, c: Call): StoreState {
    match c
    case Create => s.(dbExists := true)
    case Insert(DesignDoc(id, _)) => if id == DesignId then s.(designExists := true) else s
    case _ => s
  }

  /** What the chain's writes do to the store. */
  function Apply(s: StoreState, calls: seq<Call>): StoreState
    decreases |calls|
  {
    if calls == [] then s else Apply(Effect(s, calls[0]), calls[1..])
  }

  /** Replies that a store in state `s` would give, with every write succeeding. */
  predicate Faithful(s: StoreState, r: ProvisionReplies) {
    && (s.designExists ==> s.dbExists)
    && r.info.Replied? && (r.info.value.Some? <==> s.dbExists)
    && r.create.None?
    && r.get == Replied(s.designExists)
    && r.save.None?
  }

  /**
   * Against a store that answers truthfully, the chain succeeds and leaves
   * both the database and the view in place, and it writes nothing to a store
   * that already has them.
   */
  lemma {:induction false} ChainProvisions(s: StoreState, r: ProvisionReplies)
    requires Faithful(s, r)
    ensures Chain(r).result.None?
    ensures Apply(s, Chain(r).calls) == StoreState(true, true)
    ensures s.designExists ==> Chain(r).calls == [Info, Get(DesignId)]
  {
    var t := Chain(r);
    var ins := Insert(LogsDesign);
    var done := StoreState(true, true);
    assert Effect(StoreState(true, false), ins) == done;
    assert Apply(done, [ins]) == Apply(done, []);
    assert Apply(StoreState(true, false), [ins]) == Apply(done, []);
    assert Apply(done, [Get(DesignId), ins]) == Apply(done, [ins]);
    assert Apply(StoreState(true, false), [Get(DesignId), ins]) == Apply(StoreState(true, false), [ins]);
    if s.dbExists {
      if s.designExists {
        assert t.calls == [Info, Get(DesignId)];
        assert Apply(s, t.calls) == Apply(s, [Get(DesignId)]) == Apply(s, []);
      } else {
        assert t.calls == [Info, Get(DesignId), ins];
        assert Apply(s, t.calls) == Apply(s, [Get(DesignId), ins]);
      }
    } else {
      assert t.calls == [Info, Create, Get(DesignId), ins];
      assert Apply(s, t.calls) == Apply(s, [Create, Get(DesignId), ins]);
      assert Apply(s, [Create, Get(DesignId), ins]) == Apply(StoreState(true, false), [Get(DesignId), ins]);
    }
  }

  /** Every call after the flag is set returns at once, successfully, with no traffic. */
  lemma {:induction false} EnsuredIsSilent(rs: seq<ProvisionReplies>)
    ensures forall i :: 0 <= i < |rs| ==> EnsureMany(true, rs)[i] == Trace([], None)
    ensures AllCalls(EnsureMany(true, rs)) == []
    decreases |rs|
  {
    if rs != [] {
      EnsuredIsSilent(rs[1..]);
      var ts := EnsureMany(true, rs);
      assert ts[1..] == EnsureMany(true, rs[1..]);
    }
  }

  /**
   * However many times `_ensureView` is called, only the first runs the chain:
   * all the traffic is that one chain's (so at most one create and at most one
   * design insert), and every later call reports success, even after a failure.
   */
  lemma {:induction false} OnlyFirstEnsureProvisions(rs: seq<ProvisionReplies>)
    requires rs != []
    ensures AllCalls(EnsureMany(false, rs)) == Chain(rs[0]).calls
    ensures EnsureMany(false, rs)[0] == Chain(rs[0])
    ensures forall i :: 1 <= i < |rs| ==> EnsureMany(false, rs)[i] == Trace([], None)
    ensures Distinct(AllCalls(EnsureMany(false, rs)))
  {
    var ts := EnsureMany(false, rs);
    assert ts[1..] == EnsureMany(true, rs[1..]);
    EnsuredIsSilent(rs[1..]);
    assert AllCalls(ts) == ts[0].calls + AllCalls(ts[1..]);
    assert ts[0].calls + [] == ts[0].calls;
    ChainOrder(rs[0]);
    forall i | 1 <= i < |rs| ensures ts[i] == Trace([], None) {
      assert ts[i] == ts[1..][i - 1];
    }
  }
}
