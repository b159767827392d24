/**
 * The Nanofetch component object (index.js:15-132): its fields are updated in
 * place by createElement, _load, _handleFetch and prefetch.  Each method is
 * proved to perform one transition of NanofetchLifecycle (CreateElement
 * performs Render, HandleFetch StartFetch, ResetIfStale Guard, Invoke Handle,
 * the others the transition of the same name), so everything proved there
 * about the transitions holds of the object.
 *
 * Asynchrony is made explicit: a fetch in flight is an entry of `pending`,
 * and its settlement is the caller-invoked method Settle; an idle callback
 * scheduled by Load is counted in `idle` and run by IdleFired.
 */
module NanofetchComponent {
  import opened NanofetchLifecycle

  class Component {
    const cfg: Config

    var status: Status
    var data: Option<Payload>
    var dataID: Option<Ident>
    var createdID: Option<Ident>
    var prefetchCbs: seq<Callback>

    /** Settlement closures held by fetches that have not called back yet. */
    var pending: seq<Fetch>
    /** Idle callbacks scheduled by Load that have not fired yet. */
    var idle: nat
    /** What the component has done to the outside world, oldest first. */
    var effects: seq<Effect>

    /** The fields as a value of the lifecycle's `State`. */
    function Abs(): (s: State)
      reads this
      ensures s.status == status && s.dataID == dataID && s.cbs == prefetchCbs
    {
      State(status, data, dataID, createdID, prefetchCbs, pending, idle)
    }

    ghost predicate Valid()
      reads this
    {
      Inv(Abs())
    }

    constructor (cfg: Config)
      ensures Valid() && this.cfg == cfg
      ensures Abs() == Initial() && effects == []
    {
      this.cfg := cfg;
      status, data, dataID, createdID := Unfetched, None, None, None;
      prefetchCbs, pending, idle := [], [], 0;
      effects := [];
    }

    /** The staleness guard shared by createElement and prefetch. */
    method ResetIfStale(id: Option<Ident>)
      requires Accepts(Abs(), id)
      modifies this`status, this`data, this`dataID
      ensures Abs() == Guard(old(Abs()), id)
    {
      if status == Fetched || status == Fetching {
        if id != dataID {
          data := None;
          dataID := None;
          status := Unfetched;
        }
      }
    }

    method CreateElement(args: Args) returns (el: View)
      requires Valid() && Accepts(Abs(), cfg.identity(args))
      modifies this
      ensures Valid()
      ensures var r := Render(cfg, old(Abs()), args);
        Abs() == r.state && el == r.view && effects == old(effects) + r.effects
    {
      var id := cfg.identity(args);
      ResetIfStale(id);
      if status == Unfetched && cfg.hasInit {
        effects := effects + [Init(args)];
      }
      createdID := id;
      if status == Fetched {
        el := Hydrated(data);
        if cfg.hasWindow && cfg.hasDone {
          effects := effects + [OnLoad(DoneHook)];
        }
      } else {
        el := Placeholder;
        if cfg.hasWindow {
          effects := effects + [OnLoad(LoadHook)];
        }
      }
    }

    /** `_load`, run once the placeholder is mounted. */
    method Load()
      requires Valid()
      modifies this
      ensures Valid()
      ensures var r := NanofetchLifecycle.Load(cfg, old(Abs()));
        Abs() == r.state && effects == old(effects) + r.effects
    {
      if status == Unfetched {
        idle := idle + 1;
        effects := effects + [IdleScheduled];
      } else if status == Fetched {
        effects := effects + [Morph(data)];
        if cfg.hasDone {
          effects := effects + [Call(Done, None)];
        }
      } else if cfg.hasDone {
        prefetchCbs := prefetchCbs + [Done];
      }
    }

    /** The idle callback scheduled by Load. */
    method IdleFired()
      requires Valid() && idle > 0
      modifies this
      ensures Valid()
      ensures var r := NanofetchLifecycle.IdleFired(cfg, old(Abs()));
        Abs() == r.state && effects == old(effects) + r.effects
    {
      idle := idle - 1;
      HandleFetch(createdID, if cfg.hasDone then DoneHandler else NoopHandler);
    }

    /** The start of `_handleFetch(id, cb)`: the fetch now holds its settlement closure. */
    method HandleFetch(id: Option<Ident>, h: Handler)
      modifies this`status, this`dataID, this`pending, this`effects
      ensures Valid()
      ensures var r := StartFetch(old(Abs()), id, h);
        Abs() == r.state && effects == old(effects) + r.effects
    {
      status := Fetching;
      dataID := id;
      pending := pending + [Fetch(id, h)];
      effects := effects + [FetchStarted(id)];
    }

    /** Calling the `cb` of a settlement closure, with the fan-out loop of prefetch. */
    method Invoke(h: Handler, err: Option<Failure>)
      modifies this`effects
      ensures effects == old(effects) + Handle(h, prefetchCbs, err)
    {
      match h
      case DoneHandler =>
        effects := effects + [Call(Done, err)];
      case NoopHandler =>
      case FanOutHandler =>
        var i := 0;
        while i < |prefetchCbs|
          invariant 0 <= i <= |prefetchCbs|
          invariant effects == old(effects) + FanOut(prefetchCbs[..i], err)
        {
          if err.Some? {
            effects := effects + [Call(prefetchCbs[i], err)];
          }
          effects := effects + [Call(prefetchCbs[i], None)];
          assert prefetchCbs[..i + 1][..i] == prefetchCbs[..i];
          i := i + 1;
        }
        assert prefetchCbs[..i] == prefetchCbs;
    }

    /** The error branch of the settlement closure: reset, then `cb(err)`. */
    method SettleError(h: Handler, err: Option<Failure>)
      modifies this`status, this`dataID, this`effects
      ensures var r := NanofetchLifecycle.SettleError(old(Abs()), h, err);
        Abs() == r.state && effects == old(effects) + r.effects
    {
      if err.Some? {
        status := Unfetched;
        dataID := None;
        Invoke(h, err);
      }
    }

    /** The rest of the settlement closure: the id check, then store, morph and `cb()`. */
    method SettleData(f: Fetch, d: Option<Payload>, hasElement: bool)
      modifies this`status, this`data, this`effects
      ensures var r := NanofetchLifecycle.SettleData(old(Abs()), f, d, hasElement);
        Abs() == r.state && effects == old(effects) + r.effects
    {
      if f.id != dataID {
        return;
      }
      data := d;
      status := Fetched;
      if hasElement {
        effects := effects + [Morph(data)];
      }
      Invoke(f.handler, None);
    }

    /**
     * The fetch `pending[k]` calls its settlement closure back with `err` and
     * `d`; `hasElement` says whether `this.element` is set.
     */
    method Settle(k: nat, err: Option<Failure>, d: Option<Payload>, hasElement: bool)
      requires Valid() && k < |pending|
      modifies this
      ensures Valid()
      ensures var r := NanofetchLifecycle.Settle(old(Abs()), k, err, d, hasElement);
        Abs() == r.state && effects == old(effects) + r.effects
      ensures old(status) == Unfetched && err.None? && old(pending[k].id).Some? ==>
        status == Unfetched && data == old(data) && effects == old(effects)
    {
      ghost var s0 := Abs();
      var f := pending[k];
      pending := pending[..k] + pending[k + 1..];
      SettleError(f.handler, err);
      SettleData(f, d, hasElement);
      if s0.status == Unfetched && err.None? && f.id.Some? {
        // Valid(): an unfetched component tracks no identity.
        UnfetchedIgnoresSuccess(s0, k, d, hasElement);
      }
    }

    method Prefetch(args: Args, cb: Token)
      requires Valid() && Accepts(Abs(), cfg.identity(args))
      modifies this
      ensures Valid()
      ensures var r := NanofetchLifecycle.Prefetch(cfg, old(Abs()), args, cb);
        Abs() == r.state && effects == old(effects) + r.effects
    {
      var id := cfg.identity(args);
      ResetIfStale(id);
      if status == Fetched {
        effects := effects + [Call(User(cb), None)];
      } else if status == Fetching {
        prefetchCbs := prefetchCbs + [User(cb)];
      } else {
        prefetchCbs := prefetchCbs + [User(cb)];
        if cfg.hasInit {
          effects := effects + [Init(args)];
        }
        HandleFetch(id, FanOutHandler);
      }
    }
  }
}
