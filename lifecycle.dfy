/**
 * The fetch lifecycle of a Nanofetch component (index.js), written as values
 * and pure transitions.  Each transition takes the component's fields before
 * an event and gives the fields after it, together with what the component
 * did to the outside world meanwhile (user hooks it ran, callbacks it called,
 * fetches it started).  The class in component.dfy performs the same steps by
 * updating its fields in place and is proved against these functions.
 *
 * JavaScript `null` is `None`: identities, `_data` and `_dataID` may all be
 * null, and an identity function may itself return null.
 */
module NanofetchLifecycle {

  datatype Option<T> = None | Some(value: T)

  /**
   * Stand-ins for the values the subclass defines.  Only their equality
   * matters to the lifecycle (identities are compared, the rest are passed
   * through untouched), so fixed types lose nothing.
   */
  type Args = seq<int>   // the variadic arguments of createElement and prefetch
  type Ident = int       // a non-null value returned by the static identity()
  type Payload = int     // a non-null value delivered by fetch
  type Failure = string  // a truthy error delivered by fetch
  type Token = nat       // a caller's callback function

  /** The three statuses of index.js:7-11. */
  datatype Status = Unfetched | Fetching | Fetched

  /** An entry of `_prefetchCbs`: a caller's callback, or the component's bound `done`. */
  datatype Callback = User(token: Token) | Done

  /**
   * The `cb` given to `_handleFetch`: `done` or the empty function (from
   * `_load`), or the closure of `prefetch` that notifies the whole queue.
   */
  datatype Handler = DoneHandler | NoopHandler | FanOutHandler

  /** A settlement closure still held by a `fetch` call: the identity it captured and its `cb`. */
  datatype Fetch = Fetch(id: Option<Ident>, handler: Handler)

  /** What `createElement` returns: `placeholder()` or `hydrate(_data)`. */
  datatype View = Placeholder | Hydrated(data: Option<Payload>)

  /** What `createElement` asks `onload` to run once the element is mounted. */
  datatype Hook = LoadHook | DoneHook

  /** One observable action of the component. */
  datatype Effect =
    | Init(args: Args)                              // this.init(...args)
    | OnLoad(hook: Hook)                            // onload(el, hook)
    | IdleScheduled                                 // onidle(...) from _load
    | FetchStarted(id: Option<Ident>)               // this.fetch(closure capturing id)
    | Morph(data: Option<Payload>)                  // morph(this.element, this.hydrate(data))
    | Call(callback: Callback, err: Option<Failure>) // a callback invoked, with or without an error

  /**
   * What the subclass and the host supply: the static `identity`, whether
   * `init` and `done` are defined, and `_hasWindow`.
   */
  datatype Config = Config(identity: Args -> Option<Ident>, hasWindow: bool, hasInit: bool, hasDone: bool)

  /**
   * The fields of index.js:17-21, plus the settlement closures that
   * outstanding fetches hold and the number of scheduled idle callbacks.
   */
  datatype State = State(
    status: Status,
    data: Option<Payload>,
    dataID: Option<Ident>,
    createdID: Option<Ident>,
    cbs: seq<Callback>,
    pending: seq<Fetch>,
    idle: nat)

  datatype Step = Step(state: State, effects: seq<Effect>)

  datatype Rendered = Rendered(state: State, view: View, effects: seq<Effect>)

  predicate Busy(st: Status) {
    st == Fetching || st == Fetched
  }

  /**
   * The identity assertion of createElement (index.js:38) and prefetch
   * (index.js:108): while data is fetched or fetching, a call must name that
   * data, unless `_dataID` equals `_createdID` (an element was created for the
   * tracked data, or both are null).
   */
  predicate Accepts(s: State, id: Option<Ident>): (ok: bool)
    ensures !Busy(s.status) || s.dataID == s.createdID ==> ok
    ensures Busy(s.status) && s.dataID != s.createdID ==> (ok <==> id == s.dataID)
  {
    Busy(s.status) ==> id == s.dataID || s.dataID == s.createdID
  }

  /** The invariant every transition keeps: an unfetched component tracks no identity. */
  predicate Inv(s: State) {
    s.status == Unfetched ==> s.dataID == None
  }

  /** The constructor's fields, index.js:17-21. */
  function Initial(): (s: State)
    ensures Inv(s) && s.status == Unfetched && s.cbs == [] && s.pending == []
  {
    State(Unfetched, None, None, None, [], [], 0)
  }

  /** The staleness guard, index.js:37-44 and index.js:107-114. */
  function Guard(s: State, id: Option<Ident>): (r: State)
    requires Accepts(s, id)
    ensures Busy(s.status) && id != s.dataID ==>
      r == s.(status := Unfetched, data := None, dataID := None)
    ensures !(Busy(s.status) && id != s.dataID) ==> r == s
    ensures Busy(r.status) ==> r.dataID == id
    ensures Inv(s) ==> Inv(r)
  {
    if Busy(s.status) && id != s.dataID then
      s.(status := Unfetched, data := None, dataID := None)
    else
      s
  }

  /** `createElement(args)`, index.js:29-61. */
  function Render(cfg: Config, s: State, args: Args): (r: Rendered)
    requires Accepts(s, cfg.identity(args))
    ensures r.state == Guard(s, cfg.identity(args)).(createdID := cfg.identity(args))
    ensures r.view == if r.state.status == Fetched then Hydrated(r.state.data) else Placeholder
    ensures r.state.status == Fetched ==>
      r.effects == if cfg.hasWindow && cfg.hasDone then [OnLoad(DoneHook)] else []
    ensures r.state.status != Fetched ==>
      r.effects == (if cfg.hasInit && r.state.status == Unfetched then [Init(args)] else [])
                   + (if cfg.hasWindow then [OnLoad(LoadHook)] else [])
    ensures forall i | 0 <= i < |r.effects| :: !r.effects[i].FetchStarted? && !r.effects[i].Call?
    ensures Busy(r.state.status) ==> r.state.dataID == r.state.createdID
    ensures Inv(s) ==> Inv(r.state)
  {
    var id := cfg.identity(args);
    var g := Guard(s, id);
    var init := if g.status == Unfetched && cfg.hasInit then [Init(args)] else [];
    var c := g.(createdID := id);
    if c.status == Fetched then
      Rendered(c, Hydrated(c.data), init + (if cfg.hasWindow && cfg.hasDone then [OnLoad(DoneHook)] else []))
    else
      Rendered(c, Placeholder, init + (if cfg.hasWindow then [OnLoad(LoadHook)] else []))
  }

  /** `_load`, run by `onload` once the placeholder is mounted, index.js:63-76. */
  function Load(cfg: Config, s: State): (r: Step)
    ensures r.state.(cbs := s.cbs, idle := s.idle) == s
    ensures s.status == Unfetched ==>
      r.state == s.(idle := s.idle + 1) && r.effects == [IdleScheduled]
    ensures s.status == Fetched ==>
      r.state == s && r.effects == [Morph(s.data)] + (if cfg.hasDone then [Call(Done, None)] else [])
    ensures s.status == Fetching ==>
      r.state == s.(cbs := s.cbs + (if cfg.hasDone then [Done] else [])) && r.effects == []
    ensures Inv(s) ==> Inv(r.state)
  {
    match s.status
    case Unfetched => Step(s.(idle := s.idle + 1), [IdleScheduled])
    case Fetched => Step(s, [Morph(s.data)] + (if cfg.hasDone then [Call(Done, None)] else []))
    case Fetching => Step(s.(cbs := s.cbs + (if cfg.hasDone then [Done] else [])), [])
  }

  /** The start of `_handleFetch(id, cb)`, index.js:78-81. */
  function StartFetch(s: State, id: Option<Ident>, h: Handler): (r: Step)
    ensures r.state.status == Fetching && r.state.dataID == id
    ensures r.state.pending == s.pending + [Fetch(id, h)]
    ensures r.state.data == s.data && r.state.createdID == s.createdID
    ensures r.state.cbs == s.cbs && r.state.idle == s.idle
    ensures r.effects == [FetchStarted(id)]
    ensures Inv(r.state) && Accepts(r.state, id)
  {
    Step(s.(status := Fetching, dataID := id, pending := s.pending + [Fetch(id, h)]), [FetchStarted(id)])
  }

  /**
   * The idle callback that `_load` scheduled, index.js:65-68: it starts a
   * fetch for whatever `_createdID` is when it fires, whatever the status.
   */
  function IdleFired(cfg: Config, s: State): (r: Step)
    requires s.idle > 0
    ensures r.state.status == Fetching && r.state.dataID == s.createdID
    ensures r.state.idle == s.idle - 1
    ensures r.state.pending == s.pending + [Fetch(s.createdID, if cfg.hasDone then DoneHandler else NoopHandler)]
    ensures r.state.data == s.data && r.state.createdID == s.createdID && r.state.cbs == s.cbs
    ensures r.effects == [FetchStarted(s.createdID)]
    ensures Inv(r.state)
  {
    StartFetch(s.(idle := s.idle - 1), s.createdID, if cfg.hasDone then DoneHandler else NoopHandler)
  }

  /** One callback of the queue notified by prefetch's closure, index.js:127-128. */
  function Notify(cb: Callback, err: Option<Failure>): (r: seq<Effect>)
    ensures |r| == if err.Some? then 2 else 1
    ensures err.Some? ==> r[0] == Call(cb, err)
    ensures r[|r| - 1] == Call(cb, None)
  {
    (if err.Some? then [Call(cb, err)] else []) + [Call(cb, None)]
  }

  /** The loop of prefetch's closure over the queue, index.js:126-129. */
  function FanOut(cbs: seq<Callback>, err: Option<Failure>): (r: seq<Effect>)
    ensures |r| == if err.Some? then 2 * |cbs| else |cbs|
  {
    if cbs == [] then [] else FanOut(cbs[..|cbs| - 1], err) + Notify(cbs[|cbs| - 1], err)
  }

  /** Running the `cb` that `_handleFetch` was given. */
  function Handle(h: Handler, cbs: seq<Callback>, err: Option<Failure>): (r: seq<Effect>)
    ensures h == NoopHandler ==> r == []
    ensures h == DoneHandler ==> r == [Call(Done, err)]
    ensures h == FanOutHandler ==> |r| == if err.Some? then 2 * |cbs| else |cbs|
  {
    match h
    case DoneHandler => [Call(Done, err)]
    case NoopHandler => []
    case FanOutHandler => FanOut(cbs, err)
  }

  /**
   * The fan-out only calls callbacks of the queue, each with the closure's
   * error or with none.
   */
  lemma {:induction false} FanOutCallsQueue(cbs: seq<Callback>, err: Option<Failure>)
    ensures forall i | 0 <= i < |FanOut(cbs, err)| ::
      && FanOut(cbs, err)[i].Call? && FanOut(cbs, err)[i].callback in cbs
      && (FanOut(cbs, err)[i].err == err || FanOut(cbs, err)[i].err == None)
  {
    if cbs != [] {
      var n := |cbs|;
      FanOutCallsQueue(cbs[..n - 1], err);
      var a: seq<Effect> := FanOut(cbs[..n - 1], err);
      var b: seq<Effect> := Notify(cbs[n - 1], err);
      forall i | 0 <= i < |a + b|
        ensures (a + b)[i].Call? && (a + b)[i].callback in cbs
        ensures (a + b)[i].err == err || (a + b)[i].err == None
      {
        if i < |a| {
          assert (a + b)[i] == a[i] && a[i].callback in cbs[..n - 1];
        } else {
          assert (a + b)[i] == b[i - |a|];
        }
      }
    }
  }

  /**
   * Running a closure's `cb` only ever calls `done` or queued callbacks,
   * each with the error it was given or with none.
   */
  lemma HandleCallsOnly(h: Handler, cbs: seq<Callback>, err: Option<Failure>)
    ensures forall i | 0 <= i < |Handle(h, cbs, err)| ::
      && Handle(h, cbs, err)[i].Call?
      && (Handle(h, cbs, err)[i].err == err || Handle(h, cbs, err)[i].err == None)
      && (Handle(h, cbs, err)[i].callback == Done || Handle(h, cbs, err)[i].callback in cbs)
  {
    if h == FanOutHandler {
      FanOutCallsQueue(cbs, err);
    }
  }

  /** The error branch of the settlement closure, index.js:82-86. */
  function SettleError(s: State, h: Handler, err: Option<Failure>): (r: Step)
    ensures err.None? ==> r == Step(s, [])
    ensures err.Some? ==> r.state == s.(status := Unfetched, dataID := None)
    ensures r.state.cbs == s.cbs && r.state.pending == s.pending
    ensures r.state.createdID == s.createdID && r.state.idle == s.idle
    ensures err.Some? ==> r.effects == Handle(h, s.cbs, err) && Inv(r.state)
    ensures Inv(s) ==> Inv(r.state)
  {
    if err.Some? then Step(s.(status := Unfetched, dataID := None), Handle(h, s.cbs, err)) else Step(s, [])
  }

  /** The rest of the settlement closure, from the id check on, index.js:87-93. */
  function SettleData(s: State, f: Fetch, data: Option<Payload>, hasElement: bool): (r: Step)
    ensures f.id != s.dataID ==> r == Step(s, [])
    ensures f.id == s.dataID ==> r.state == s.(data := data, status := Fetched)
    ensures r.state.dataID == s.dataID && r.state.cbs == s.cbs && r.state.pending == s.pending
    ensures r.state.createdID == s.createdID && r.state.idle == s.idle
    ensures f.id == s.dataID ==>
      r.effects == (if hasElement then [Morph(data)] else []) + Handle(f.handler, s.cbs, None)
    ensures Inv(s) ==> Inv(r.state)
  {
    if f.id != s.dataID then
      Step(s, [])
    else
      Step(s.(data := data, status := Fetched), (if hasElement then [Morph(data)] else []) + Handle(f.handler, s.cbs, None))
  }

  /**
   * The settlement closure of index.js:81-94 for the fetch `pending[k]`:
   * `fetch` called it back with `err` and `data`, and the element is mounted
   * when `hasElement`.
   */
  function Settle(s: State, k: nat, err: Option<Failure>, data: Option<Payload>, hasElement: bool): (r: Step)
    requires k < |s.pending|
    ensures r.state.pending == s.pending[..k] + s.pending[k + 1..]
    ensures r.state.cbs == s.cbs && r.state.createdID == s.createdID && r.state.idle == s.idle
    ensures Inv(s) ==> Inv(r.state)
  {
    var f := s.pending[k];
    var a := SettleError(s.(pending := s.pending[..k] + s.pending[k + 1..]), f.handler, err);
    var b := SettleData(a.state, f, data, hasElement);
    Step(b.state, a.effects + b.effects)
  }

  /**
   * What a settlement does, by case (index.js:82-93): success for the
   * current `_dataID` stores the data and runs `cb` once; success for any
   * other id is discarded; an error resets and runs `cb(err)`, and only for
   * a null id goes on to store the data and run `cb` again.
   */
  lemma SettleOutcomes(s: State, k: nat, err: Option<Failure>, data: Option<Payload>, hasElement: bool)
    requires k < |s.pending|
    ensures var r := Settle(s, k, err, data, hasElement);
      err.None? && s.pending[k].id == s.dataID ==>
        && r.state.status == Fetched && r.state.data == data && r.state.dataID == s.dataID
        && r.effects == (if hasElement then [Morph(data)] else []) + Handle(s.pending[k].handler, s.cbs, None)
    ensures var r := Settle(s, k, err, data, hasElement);
      err.None? && s.pending[k].id != s.dataID ==>
        r.state == s.(pending := r.state.pending) && r.effects == []
    ensures var r := Settle(s, k, err, data, hasElement);
      err.Some? && s.pending[k].id.Some? ==>
        && r.state == s.(status := Unfetched, dataID := None, pending := r.state.pending)
        && r.effects == Handle(s.pending[k].handler, s.cbs, err)
    ensures var r := Settle(s, k, err, data, hasElement);
      err.Some? && s.pending[k].id == None ==>
        && r.state.status == Fetched && r.state.data == data && r.state.dataID == None
        && r.effects == Handle(s.pending[k].handler, s.cbs, err)
                        + (if hasElement then [Morph(data)] else [])
                        + Handle(s.pending[k].handler, s.cbs, None)
  {
  }

  /** `prefetch(args, cb)`, index.js:97-132. */
  function Prefetch(cfg: Config, s: State, args: Args, cb: Token): (r: Step)
    requires Accepts(s, cfg.identity(args))
    ensures r.state.status != Unfetched && r.state.dataID == cfg.identity(args)
    ensures r.state.createdID == s.createdID && r.state.idle == s.idle
    ensures var g := Guard(s, cfg.identity(args));
      g.status == Fetched ==> r.state == g && r.effects == [Call(User(cb), None)]
    ensures var g := Guard(s, cfg.identity(args));
      g.status == Fetching ==> r.state == g.(cbs := g.cbs + [User(cb)]) && r.effects == []
    ensures var g := Guard(s, cfg.identity(args));
      g.status == Unfetched ==>
        && r.state == g.(status := Fetching, dataID := cfg.identity(args), cbs := g.cbs + [User(cb)],
                         pending := g.pending + [Fetch(cfg.identity(args), FanOutHandler)])
        && r.effects == (if cfg.hasInit then [Init(args)] else []) + [FetchStarted(cfg.identity(args))]
    ensures Inv(r.state)
  {
    var id := cfg.identity(args);
    var g := Guard(s, id);
    match g.status
    case Fetched => Step(g, [Call(User(cb), None)])
    case Fetching => Step(g.(cbs := g.cbs + [User(cb)]), [])
    case Unfetched =>
      var st := StartFetch(g.(cbs := g.cbs + [User(cb)]), id, FanOutHandler);
      Step(st.state, (if cfg.hasInit then [Init(args)] else []) + st.effects)
  }

  // ---------------------------------------------------------------------
  // Fan-out order

  /**
   * The closure of prefetch notifies the queue in order: on success each
   * callback once with no error; on error each callback first with the error
   * and right after that once more with no error.
   */
  lemma {:induction false} FanOutOrder(cbs: seq<Callback>, err: Option<Failure>, i: nat)
    requires i < |cbs|
    ensures err.None? ==> FanOut(cbs, err)[i] == Call(cbs[i], None)
    ensures err.Some? ==>
      && FanOut(cbs, err)[2 * i] == Call(cbs[i], err)
      && FanOut(cbs, err)[2 * i + 1] == Call(cbs[i], None)
  {
    var n := |cbs|;
    if i < n - 1 {
      FanOutOrder(cbs[..n - 1], err, i);
    }
  }

  /**
   * A failed fetch started by prefetch (for a non-null identity) calls every
   * queued callback twice, index.js:82-86 with index.js:127-128, and stores
   * nothing.
   */
  lemma ErrorNotifiesQueueTwice(s: State, k: nat, e: Failure, data: Option<Payload>, hasElement: bool, i: nat)
    requires k < |s.pending| && s.pending[k] == Fetch(s.pending[k].id, FanOutHandler) && s.pending[k].id.Some?
    requires i < |s.cbs|
    ensures var r := Settle(s, k, Some(e), data, hasElement);
      && r.state.status == Unfetched && r.state.data == s.data
      && |r.effects| == 2 * |s.cbs|
      && r.effects[2 * i] == Call(s.cbs[i], Some(e))
      && r.effects[2 * i + 1] == Call(s.cbs[i], None)
  {
    FanOutOrder(s.cbs, Some(e), i);
  }

  // ---------------------------------------------------------------------
  // Coalescing

  /** The queue entries that prefetch adds for the callbacks `toks`, in order. */
  function Users(toks: seq<Token>): (r: seq<Callback>)
    ensures |r| == |toks|
    ensures forall i | 0 <= i < |toks| :: r[i] == User(toks[i])
  {
    if toks == [] then [] else Users(toks[..|toks| - 1]) + [User(toks[|toks| - 1])]
  }

  /** `prefetch(args, t)` called once for each `t` of `toks`, in order. */
  function PrefetchAll(cfg: Config, s: State, args: Args, toks: seq<Token>): (r: Step)
    requires Accepts(s, cfg.identity(args))
    ensures Accepts(r.state, cfg.identity(args))
    ensures Inv(s) ==> Inv(r.state)
  {
    if toks == [] then
      Step(s, [])
    else
      var r0 := PrefetchAll(cfg, s, args, toks[..|toks| - 1]);
      var r1 := Prefetch(cfg, r0.state, args, toks[|toks| - 1]);
      Step(r1.state, r0.effects + r1.effects)
  }

  /**
   * Prefetching the same identity N times from an unfetched component starts
   * exactly one fetch, and queues the N callbacks behind it in call order.
   */
  lemma {:induction false} PrefetchesCoalesce(cfg: Config, s: State, args: Args, toks: seq<Token>)
    requires Accepts(s, cfg.identity(args)) && Guard(s, cfg.identity(args)).status == Unfetched
    requires |toks| > 0
    ensures var id := cfg.identity(args);
      var g := Guard(s, id);
      var r := PrefetchAll(cfg, s, args, toks);
      && r.state == g.(status := Fetching, dataID := id, cbs := s.cbs + Users(toks),
                       pending := s.pending + [Fetch(id, FanOutHandler)])
      && r.effects == (if cfg.hasInit then [Init(args)] else []) + [FetchStarted(id)]
  {
    var n := |toks|;
    if n > 1 {
      PrefetchesCoalesce(cfg, s, args, toks[..n - 1]);
    } else {
      assert toks[..n - 1] == [];
    }
  }

  /**
   * When that one fetch succeeds, the data is stored and the whole queue is
   * notified through the fan-out: the entries already in the queue (it is
   * never emptied) and then the N new ones.
   */
  lemma CoalescedSettlement(cfg: Config, s: State, args: Args, toks: seq<Token>, data: Option<Payload>, hasElement: bool)
    requires Accepts(s, cfg.identity(args)) && Guard(s, cfg.identity(args)).status == Unfetched
    requires |toks| > 0
    ensures var p := PrefetchAll(cfg, s, args, toks);
      && |s.pending| < |p.state.pending|
      && (var r := Settle(p.state, |s.pending|, None, data, hasElement);
          && r.state.status == Fetched && r.state.data == data
          && r.effects == (if hasElement then [Morph(data)] else []) + FanOut(s.cbs + Users(toks), None))
  {
    PrefetchesCoalesce(cfg, s, args, toks);
    var p := PrefetchAll(cfg, s, args, toks);
    var k := |s.pending|;
    assert p.state.pending[k] == Fetch(cfg.identity(args), FanOutHandler);
    assert p.state.dataID == cfg.identity(args) && p.state.cbs == s.cbs + Users(toks);
    SettleOutcomes(p.state, k, None, data, hasElement);
  }

  /**
   * In that fan-out, each of the N callbacks is called exactly once, with no
   * error, in the order prefetch was called.
   */
  lemma CoalescedCallbacksInOrder(queued: seq<Callback>, toks: seq<Token>)
    ensures var r := FanOut(queued + Users(toks), None);
      && |r| == |queued| + |toks|
      && (forall i | 0 <= i < |queued| :: r[i] == Call(queued[i], None))
      && (forall i | 0 <= i < |toks| :: r[|queued| + i] == Call(User(toks[i]), None))
  {
    var q := queued + Users(toks);
    forall i | 0 <= i < |q|
      ensures FanOut(q, None)[i] == Call(q[i], None)
    {
      FanOutOrder(q, None, i);
    }
    forall i | 0 <= i < |toks|
      ensures FanOut(q, None)[|queued| + i] == Call(User(toks[i]), None)
    {
      assert q[|queued| + i] == User(toks[i]);
    }
  }

  // ---------------------------------------------------------------------
  // The identity guard across calls

  /**
   * After createElement, the guard admits any identity on the next call: the
   * element now exists for whatever data is tracked.
   */
  lemma RenderLeavesGuardOpen(cfg: Config, s: State, args: Args, next: Option<Ident>)
    requires Accepts(s, cfg.identity(args))
    ensures Accepts(Render(cfg, s, args).state, next)
  {
  }

  /**
   * After prefetch, the guard admits a later identity exactly when it is the
   * prefetched one, or when the prefetched one equals `_createdID`.
   */
  lemma PrefetchPinsIdentity(cfg: Config, s: State, args: Args, cb: Token, next: Option<Ident>)
    requires Accepts(s, cfg.identity(args))
    ensures Accepts(Prefetch(cfg, s, args, cb).state, next)
        <==> next == cfg.identity(args) || cfg.identity(args) == s.createdID
  {
  }

  // ---------------------------------------------------------------------
  // Races between rendering and settlement

  /**
   * createElement(a1) shows a placeholder, the idle callback starts a fetch
   * for a1, then createElement(a2) resets the instance; the a1 fetch then
   * succeeds and changes nothing and calls nothing.
   */
  lemma StaleFetchDiscarded(cfg: Config, s: State, a1: Args, a2: Args, data: Option<Payload>, hasElement: bool)
    requires cfg.hasWindow
    requires Accepts(s, cfg.identity(a1))
    requires Render(cfg, s, a1).state.status == Unfetched
    requires cfg.identity(a1).Some? && cfg.identity(a1) != cfg.identity(a2)
    ensures
      var r1 := Render(cfg, s, a1);
      var l := Load(cfg, r1.state);
      var f := IdleFired(cfg, l.state);
      var r2 := Render(cfg, f.state, a2);
      var k := |s.pending|;
      && r2.state.status == Unfetched && r2.view == Placeholder
      && k < |r2.state.pending| && r2.state.pending[k].id == cfg.identity(a1)
      && (var st := Settle(r2.state, k, None, data, hasElement);
          st.state == r2.state.(pending := s.pending) && st.effects == [])
  {
    var r1 := Render(cfg, s, a1);
    var l := Load(cfg, r1.state);
    var f := IdleFired(cfg, l.state);
    var r2 := Render(cfg, f.state, a2);
    var k := |s.pending|;
    assert r2.state.pending[..k] + r2.state.pending[k + 1..] == s.pending;
  }

  /**
   * After a failed fetch for a non-null identity, prefetching that identity
   * again starts a fresh fetch instead of reusing the failed one.
   */
  lemma ErrorThenRetry(cfg: Config, s: State, k: nat, e: Failure, data: Option<Payload>, hasElement: bool, args: Args, cb: Token)
    requires k < |s.pending| && s.pending[k].id == cfg.identity(args) && cfg.identity(args).Some?
    ensures var r := Settle(s, k, Some(e), data, hasElement);
      && r.state.status == Unfetched && r.state.dataID == None
      && Accepts(r.state, cfg.identity(args))
      && (var p := Prefetch(cfg, r.state, args, cb);
          && p.state.status == Fetching
          && p.state.pending == r.state.pending + [Fetch(cfg.identity(args), FanOutHandler)]
          && p.effects[|p.effects| - 1] == FetchStarted(cfg.identity(args)))
  {
  }

  /**
   * A stale fetch that fails strands a later prefetch: createElement(a1), the
   * idle callback fetches a1, prefetch(a2, cb) resets and fetches a2; the a1
   * fetch then fails, which resets the component and nulls `_dataID`
   * (index.js:82-86) although a2 is in flight; the a2 fetch's success is
   * then discarded by the id check (index.js:87-89), so cb is never called.
   */
  lemma StaleErrorStrandsPrefetch(cfg: Config, a1: Args, a2: Args, cb: Token, e: Failure, d: Option<Payload>, hasElement: bool)
    requires cfg.hasWindow
    requires cfg.identity(a1).Some? && cfg.identity(a2).Some? && cfg.identity(a1) != cfg.identity(a2)
    ensures
      var r := Render(cfg, Initial(), a1);
      var l := Load(cfg, r.state);
      var f := IdleFired(cfg, l.state);
      && Accepts(f.state, cfg.identity(a2))
      && (var p := Prefetch(cfg, f.state, a2, cb);
          && p.state.pending == [Fetch(cfg.identity(a1), f.state.pending[0].handler),
                                 Fetch(cfg.identity(a2), FanOutHandler)]
          && p.state.cbs == [User(cb)]
          && (var q1 := Settle(p.state, 0, Some(e), d, hasElement);
              && q1.state.status == Unfetched && q1.state.dataID == None
              && q1.effects == (if cfg.hasDone then [Call(Done, Some(e))] else [])
              && (var q2 := Settle(q1.state, 0, None, d, hasElement);
                  && q2.state == q1.state.(pending := [])
                  && q2.effects == [])))
  {
  }

  /**
   * Under the invariant, an unfetched component tracks no identity, so the
   * success of any fetch for a non-null identity is discarded by the id check
   * (index.js:87-89): nothing changes and nothing is called.
   */
  lemma UnfetchedIgnoresSuccess(s: State, k: nat, data: Option<Payload>, hasElement: bool)
    requires Inv(s) && s.status == Unfetched
    requires k < |s.pending| && s.pending[k].id.Some?
    ensures var r := Settle(s, k, None, data, hasElement);
      r.state == s.(pending := s.pending[..k] + s.pending[k + 1..]) && r.effects == []
  {
  }

  /**
   * A fresh component: prefetch(args, cb), the fetch succeeds with d before
   * any element exists, cb is called once; createElement(args) then shows d
   * without fetching again.
   */
  lemma PrefetchThenRender(cfg: Config, args: Args, cb: Token, d: Payload)
    ensures
      var p := Prefetch(cfg, Initial(), args, cb);
      && |p.state.pending| == 1
      && (var st := Settle(p.state, 0, None, Some(d), false);
          && st.effects == [Call(User(cb), None)]
          && st.state.cbs == [User(cb)]
          && Accepts(st.state, cfg.identity(args))
          && (var r := Render(cfg, st.state, args);
              r.view == Hydrated(Some(d)) && r.state.pending == []))
  {
    var p := Prefetch(cfg, Initial(), args, cb);
    assert p.state.cbs == [User(cb)];
  }

  /**
   * A fresh component renders a placeholder; once mounted, the idle callback
   * fetches; when the fetch succeeds the mounted element is morphed to the
   * hydrated view of the data.
   */
  lemma MountedPlaceholderHydrated(cfg: Config, args: Args, d: Payload)
    requires cfg.hasWindow
    ensures
      var r := Render(cfg, Initial(), args);
      && r.view == Placeholder && r.effects[|r.effects| - 1] == OnLoad(LoadHook)
      && (var l := Load(cfg, r.state);
          var f := IdleFired(cfg, l.state);
          && |f.state.pending| == 1 && f.state.pending[0].id == cfg.identity(args)
          && (var st := Settle(f.state, 0, None, Some(d), true);
              && st.state.status == Fetched && st.state.data == Some(d)
              && st.effects[0] == Morph(Some(d))))
  {
  }

  /**
   * Two fetches for the same identity can be in flight at once: the idle
   * callback of `_load` starts one without looking at the status, after
   * prefetch already started another.
   */
  lemma DuplicateFetchInFlight(cfg: Config, args: Args, cb: Token)
    requires cfg.hasWindow
    ensures
      var r := Render(cfg, Initial(), args);
      var l := Load(cfg, r.state);
      var p := Prefetch(cfg, l.state, args, cb);
      && p.state.idle == 1
      && (var f := IdleFired(cfg, p.state);
          && |f.state.pending| == 2
          && f.state.pending[0].id == cfg.identity(args)
          && f.state.pending[1].id == cfg.identity(args))
  {
  }

  /**
   * The queue is never emptied: while busy with `_dataID` equal to
   * `_createdID`, a prefetch for other data resets, queues its callback behind the old
   * entries and fetches; when that fetch succeeds, the callbacks of earlier
   * cycles are called again, in their old order, before the new one.
   */
  lemma EarlierCallbacksReplayed(cfg: Config, s: State, args: Args, cb: Token, data: Option<Payload>, hasElement: bool)
    requires Busy(s.status) && s.dataID == s.createdID && cfg.identity(args) != s.dataID
    ensures
      var p := Prefetch(cfg, s, args, cb);
      && p.state.cbs == s.cbs + [User(cb)]
      && |s.pending| < |p.state.pending|
      && Settle(p.state, |s.pending|, None, data, hasElement).effects
         == (if hasElement then [Morph(data)] else []) + FanOut(s.cbs + [User(cb)], None)
  {
    var id := cfg.identity(args);
    var p := Prefetch(cfg, s, args, cb);
    assert p.state.pending[|s.pending|] == Fetch(id, FanOutHandler) && p.state.dataID == id;
    SettleOutcomes(p.state, |s.pending|, None, data, hasElement);
  }
}
