/** The moderator gate of the dashboard (src/components/WorldDashboard.tsx): the effect
    `checkModerator` that decides `isModerator` and `loadingAdmin`, guarded by a `mounted`
    flag that the effect's cleanup clears.

    Each run of the effect has its own `mounted` flag. A re-run (the client, the session or
    the role test changed) first runs the previous run's cleanup, so at most the latest run
    is mounted; `run` numbers the runs and `mounted` is the latest run's flag. The roster
    lookup is asynchronous: its outcome is an event naming the run that started it. */
module WorldDashboard {
  import opened Wrappers
  import opened Types

  datatype Tab = WorldTab | CharactersTab | CoteriesTab | AdminTab

  /** A JavaScript value as returned by the roster lookup, as far as `Boolean` tells them
      apart (NaN is not modelled). */
  datatype JsValue = Undefined | Null | Bool(b: bool) | Number(n: int) | Str(s: string) | Object

  /** `Boolean(v)`: false exactly for the five falsy values. */
  predicate Truthy(v: JsValue)
    ensures Truthy(v) <==> v !in {Undefined, Null, Bool(false), Number(0), Str("")}
  {
    match v
    case Undefined => false
    case Null => false
    case Bool(b) => b
    case Number(n) => n != 0
    case Str(s) => s != ""
    case Object => true
  }

  /** The role test as written: it reads `session.role` during render, so a null session
      throws before the effect can run. */
  function IsStOrAdminAsWritten(session: Option<Session>): (r: Result<bool, string>)
    ensures session.None? <==> r.Failure?
  {
    if session.None? then Failure("TypeError: cannot read property 'role' of null")
    else Success(session.value.role == "st" || session.value.role == "admin")
  }

  /** The role test read through an optional session (`session?.role`), as the effect's
      null check intends: true exactly for a session whose role is "st" or "admin". */
  function IsStOrAdmin(session: Option<Session>): (b: bool)
    ensures b <==> session.Some? && session.value.role in {"st", "admin"}
    ensures session.Some? ==> IsStOrAdminAsWritten(session) == Success(b)
  {
    session.Some? && (session.value.role == "st" || session.value.role == "admin")
  }

  /** The arguments a run passes to the roster lookup. */
  datatype Lookup = Lookup(run: nat, engineId: string, userId: string)

  datatype GateState = GateState(
    isModerator: bool,
    loadingAdmin: bool,
    tab: Tab,
    run: nat,
    mounted: bool,
    inFlight: set<nat>)

  datatype GateEvent =
    | EffectRan(clientPresent: bool, session: Option<Session>)
    | LookupResolved(lookupRun: nat, result: JsValue)
    | LookupRejected(lookupRun: nat)
    | CleanedUp

  /** Before the first effect run. */
  function InitialGate(): GateState {
    GateState(false, true, WorldTab, 0, false, {})
  }

  /** Whether the run `r` may still write the state cells. */
  predicate Live(s: GateState, r: nat) {
    r == s.run && s.mounted
  }

  /** Whether a run with these inputs goes to the roster lookup. */
  predicate NeedsLookup(clientPresent: bool, session: Option<Session>) {
    clientPresent && session.Some? && !IsStOrAdmin(session)
  }

  /** One event. The tab is never written, loading never restarts, and the cells change
      only in an effect run or at the outcome of the live run's outstanding lookup. */
  function GateStep(s: GateState, e: GateEvent): (r: GateState)
    ensures r.tab == s.tab
    ensures r.run >= s.run
    ensures r.loadingAdmin ==> s.loadingAdmin
    ensures r.isModerator != s.isModerator || r.loadingAdmin != s.loadingAdmin ==>
      e.EffectRan? || (!e.CleanedUp? && e.lookupRun in s.inFlight && Live(s, e.lookupRun))
  {
    match e
    case EffectRan(clientPresent, session) =>
      var t := s.(run := s.run + 1, mounted := true);
      if !clientPresent || session.None? then t.(isModerator := false, loadingAdmin := false)
      else if IsStOrAdmin(session) then t.(isModerator := true, loadingAdmin := false)
      else t.(inFlight := t.inFlight + {t.run})
    case LookupResolved(r, result) =>
      if r !in s.inFlight then s
      else
        var t := s.(inFlight := s.inFlight - {r});
        if Live(s, r) then t.(isModerator := Truthy(result), loadingAdmin := false) else t
    case LookupRejected(r) =>
      if r !in s.inFlight then s
      else
        var t := s.(inFlight := s.inFlight - {r});
        if Live(s, r) then t.(isModerator := false, loadingAdmin := false) else t
    case CleanedUp => s.(mounted := false)
  }

  /** Render, then effect, as written: the render evaluates `session.role` first. When it
      throws, the effect is never scheduled and the state stays as it was; otherwise the
      effect runs with the role test's value. */
  function GateStepAsWritten(s: GateState, e: GateEvent): (r: Result<GateState, string>)
    ensures e.EffectRan? ==> (r.Failure? <==> e.session.None?)
  {
    match e
    case EffectRan(clientPresent, session) =>
      var role := IsStOrAdminAsWritten(session);
      if role.Failure? then Failure(role.error)
      else
        var t := s.(run := s.run + 1, mounted := true);
        if !clientPresent || session.None? then Success(t.(isModerator := false, loadingAdmin := false))
        else if role.value then Success(t.(isModerator := true, loadingAdmin := false))
        else Success(t.(inFlight := t.inFlight + {t.run}))
    case _ => Success(GateStep(s, e))
  }

  /** As written, a run with no session never reaches the effect: the render throws and
      `loadingAdmin` keeps its value, where the corrected gate ends loading with
      "not a moderator". With a session both agree. */
  lemma RoleTestThrowsWithoutSession(s: GateState, clientPresent: bool)
    ensures GateStepAsWritten(s, EffectRan(clientPresent, None)).Failure?
    ensures var t := GateStep(s, EffectRan(clientPresent, None));
      !t.isModerator && !t.loadingAdmin
  {
  }

  /** Wherever the as-written render does not throw, it agrees with the corrected gate. */
  lemma AsWrittenAgreesWithSession(s: GateState, e: GateEvent)
    requires !(e.EffectRan? && e.session.None?)
    ensures GateStepAsWritten(s, e) == Success(GateStep(s, e))
  {
  }

  function GateRun(s: GateState, events: seq<GateEvent>): GateState
    decreases |events|
  {
    if events == [] then s else GateRun(GateStep(s, events[0]), events[1..])
  }

  /** The three synchronous paths of a run: a missing client or session gives false
      (checked before the role), st/admin gives true, and only the remaining case starts a
      lookup, leaving the cells as they were. */
  lemma EffectPaths(s: GateState, clientPresent: bool, session: Option<Session>)
    ensures var t := GateStep(s, EffectRan(clientPresent, session));
      && Live(t, t.run) && t.tab == s.tab
      && (!clientPresent || session.None? ==>
            !t.isModerator && !t.loadingAdmin && t.inFlight == s.inFlight)
      && (clientPresent && IsStOrAdmin(session) ==>
            t.isModerator && !t.loadingAdmin && t.inFlight == s.inFlight)
      && (NeedsLookup(clientPresent, session) ==>
            t.isModerator == s.isModerator && t.loadingAdmin == s.loadingAdmin
            && t.inFlight == s.inFlight + {t.run})
  {
  }

  /** The lookup of the live run decides the flag: the truthiness of its result, or false
      when it threw; either way loading ends. */
  lemma LiveLookupDecides(s: GateState, result: JsValue)
    requires s.run in s.inFlight && s.mounted
    ensures var t := GateStep(s, LookupResolved(s.run, result));
      t.isModerator == Truthy(result) && !t.loadingAdmin
    ensures var t := GateStep(s, LookupRejected(s.run));
      !t.isModerator && !t.loadingAdmin
  {
  }

  /** The outcome of a lookup whose run has been cleaned up or superseded leaves both
      cells alone. */
  lemma StaleLookupIgnored(s: GateState, r: nat, result: JsValue)
    requires !Live(s, r)
    ensures var t := GateStep(s, LookupResolved(r, result));
      t.isModerator == s.isModerator && t.loadingAdmin == s.loadingAdmin
    ensures var t := GateStep(s, LookupRejected(r));
      t.isModerator == s.isModerator && t.loadingAdmin == s.loadingAdmin
  {
  }

  /** After the cleanup has cleared `mounted`, no sequence of late lookup outcomes (and
      further cleanups) changes `isModerator` or `loadingAdmin`. */
  lemma {:induction false} FrozenAfterCleanup(s: GateState, events: seq<GateEvent>)
    requires !s.mounted
    requires forall i :: 0 <= i < |events| ==> !events[i].EffectRan?
    ensures GateRun(s, events).isModerator == s.isModerator
    ensures GateRun(s, events).loadingAdmin == s.loadingAdmin
    ensures !GateRun(s, events).mounted
    decreases |events|
  {
    if events != [] {
      FrozenAfterCleanup(GateStep(s, events[0]), events[1..]);
    }
  }

  /** Loading, once over, never comes back: no event sets `loadingAdmin` to true. */
  lemma {:induction false} LoadingNeverReturns(s: GateState, events: seq<GateEvent>)
    ensures GateRun(s, events).loadingAdmin ==> s.loadingAdmin
    decreases |events|
  {
    if events != [] {
      LoadingNeverReturns(GateStep(s, events[0]), events[1..]);
    }
  }

  /** The dashboard's gate cells and the latest run's `mounted` flag. */
  class ModeratorCheck {
    var isModerator: bool
    var loadingAdmin: bool
    var tab: Tab
    var run: nat
    var mounted: bool
    var inFlight: set<nat>

    function State(): GateState
      reads this
    {
      GateState(isModerator, loadingAdmin, tab, run, mounted, inFlight)
    }

    /** Initial render: not a moderator, admin status loading, world tab. */
    constructor ()
      ensures State() == InitialGate()
      ensures !isModerator && loadingAdmin && tab == WorldTab
    {
      isModerator := false;
      loadingAdmin := true;
      tab := WorldTab;
      run := 0;
      mounted := false;
      inFlight := {};
    }

    /** One run of the effect, up to the point where it awaits the lookup. Returns the
        lookup it starts, if any. */
    method RunEffect(clientPresent: bool, session: Option<Session>) returns (lookup: Option<Lookup>)
      modifies this
      ensures State() == GateStep(old(State()), EffectRan(clientPresent, session))
      ensures lookup.Some? <==> NeedsLookup(clientPresent, session)
      ensures lookup.Some? ==>
        lookup.value == Lookup(run, session.value.engineId, session.value.userId)
    {
      // the previous run's cleanup, then this run's own `mounted = true`
      run := run + 1;
      mounted := true;
      lookup := None;
      if !clientPresent || session.None? {
        if mounted {
          isModerator := false;
          loadingAdmin := false;
        }
        return;
      }
      if IsStOrAdmin(session) {
        if mounted {
          isModerator := true;
          loadingAdmin := false;
        }
        return;
      }
      lookup := Some(Lookup(run, session.value.engineId, session.value.userId));
      inFlight := inFlight + {run};
    }

    /** The lookup started by run `r` resolved with `result`. */
    method OnLookupResolved(r: nat, result: JsValue)
      requires r in inFlight
      modifies this
      ensures State() == GateStep(old(State()), LookupResolved(r, result))
    {
      var live := r == run && mounted;
      inFlight := inFlight - {r};
      if live {
        isModerator := Truthy(result);
      }
      // finally
      if live {
        loadingAdmin := false;
      }
    }

    /** The lookup started by run `r` threw. */
    method OnLookupRejected(r: nat)
      requires r in inFlight
      modifies this
      ensures State() == GateStep(old(State()), LookupRejected(r))
    {
      var live := r == run && mounted;
      inFlight := inFlight - {r};
      if live {
        isModerator := false;
      }
      // finally
      if live {
        loadingAdmin := false;
      }
    }

    /** The effect's cleanup on unmount. */
    method Cleanup()
      modifies this
      ensures State() == GateStep(old(State()), CleanedUp)
    {
      mounted := false;
    }
  }
}
