/** The top-level view of the client (src/App.tsx): three state cells (session, world,
    error), the realtime channel with its three listeners, the one-shot `load` started at
    mount, and the ordered rule that picks the screen.

    Every network and socket call is replaced by an event that carries its outcome. The
    pure `Step` gives the meaning of each event; the class `AppComponent` performs the same
    updates cell by cell, as the handlers do, and is proved to agree with `Step`. */
module App {
  import opened Wrappers
  import opened Types

  /** How far the one `load` run started at mount has got. */
  datatype LoadPhase = FetchingMe | FetchingWorld | Settled

  /** The three push events the app listens to while a session is held. */
  datatype PushEvent = WorldPush | XpAppliedPush | ErrorPush

  const AllPushEvents: set<PushEvent> := {WorldPush, XpAppliedPush, ErrorPush}

  /** Message stored when an `error` push carries no `error` field. */
  const RealtimeErrorText: string := "Realtime error"

  /** The state cells, the load phase, whether the realtime channel is connected, and
      which push listeners are attached to it. */
  datatype ViewState = ViewState(
    session: Option<Session>,
    world: Option<WorldState>,
    error: Option<string>,
    phase: LoadPhase,
    connected: bool,
    listeners: set<PushEvent>)

  datatype Screen = Login | ErrorScreen(message: string) | Loading | Dashboard

  /** JavaScript truthiness of the error cell: both null and the empty string are falsy. */
  predicate IsTruthy(e: Option<string>) {
    e.Some? && e.value != ""
  }

  /** The render rule, tried in source order: no session, then an error with no world, then
      no world, else the dashboard. The postconditions give each screen's condition in
      closed form, independent of the order of the tests. */
  function SelectScreen(session: Option<Session>, world: Option<WorldState>, error: Option<string>): (r: Screen)
    ensures r == Login <==> session.None?
    ensures r.ErrorScreen? <==> session.Some? && world.None? && IsTruthy(error)
    ensures r.ErrorScreen? ==> r.message == error.value && r.message != ""
    ensures r == Loading <==> session.Some? && world.None? && !IsTruthy(error)
    ensures r == Dashboard <==> session.Some? && world.Some?
  {
    if session.None? then Login
    else if IsTruthy(error) && world.None? then ErrorScreen(error.value)
    else if world.None? then Loading
    else Dashboard
  }

  function ScreenOf(s: ViewState): Screen {
    SelectScreen(s.session, s.world, s.error)
  }

  /** The outcomes the app reacts to.
      - MeFetched / MeFailed: `fetchMe` inside `load` resolved or threw; `message` is the
        thrown error's `message`, `None` when it has none.
      - WorldFetched / WorldFailed: the same for `fetchWorld`.
      - WorldPushed: a `world` push; `payloadWorld` is `Some` exactly when `payload?.world`
        is truthy.
      - XpAppliedPushed: an `xp_applied` push (logged only).
      - ErrorPushed: an `error` push; `payloadError` is `payload?.error`, `None` when null
        or absent.
      - WorldUpdated: a panel called `onWorldUpdate`.
      - LoggedOut: `onLogout` ran; `logoutFetchResolved` is false when the awaited logout
        request rejected, which ends the handler before anything else runs. */
  datatype Event =
    | MeFetched(me: Session)
    | MeFailed(message: Option<string>)
    | WorldFetched(fetched: WorldState)
    | WorldFailed(message: Option<string>)
    | WorldPushed(payloadWorld: Option<WorldState>)
    | XpAppliedPushed
    | ErrorPushed(payloadError: Option<string>)
    | WorldUpdated(updated: WorldState)
    | LoggedOut(logoutFetchResolved: bool)

  /** At mount every cell is null, no channel exists and `load` awaits `fetchMe`. */
  function Init(): ViewState {
    ViewState(None, None, None, FetchingMe, false, {})
  }

  /** A push is handled only when the channel is connected and its listener attached. */
  predicate Delivered(s: ViewState, p: PushEvent) {
    s.connected && p in s.listeners
  }

  /** The effect keyed on `session`: when the session changed, the previous run's cleanup
      detaches all three listeners, and a non-null session opens a channel and attaches
      them again. The cleanup detaches but does not disconnect. */
  function Resubscribe(before: Option<Session>, s: ViewState): (r: ViewState)
    ensures r.session == s.session && r.world == s.world && r.error == s.error && r.phase == s.phase
    ensures before != s.session ==> r.listeners == (if s.session.Some? then AllPushEvents else {})
    ensures before == s.session ==> r.listeners == s.listeners
    ensures r.connected == (s.connected || (before != s.session && s.session.Some?))
  {
    if before == s.session then s
    else if s.session.Some? then s.(connected := true, listeners := AllPushEvents)
    else s.(listeners := {})
  }

  /** The catch branch of `load`. */
  function LoadFailed(s: ViewState, message: Option<string>): (r: ViewState)
    ensures r.session.None? && r.world.None? && r.error == message && r.phase == Settled
    ensures r.connected == s.connected
    ensures r.listeners == (if s.session.Some? then {} else s.listeners)
    ensures ScreenOf(r) == Login
  {
    Resubscribe(s.session, s.(session := None, world := None, error := message, phase := Settled))
  }

  /** Position of a load phase: `load` only moves forward. */
  function PhaseRank(p: LoadPhase): nat {
    match p
    case FetchingMe => 0
    case FetchingWorld => 1
    case Settled => 2
  }

  /** One event. The outcome of a call that is not in flight cannot arrive; `Step` leaves
      the state unchanged for it, so the trace lemmas below cover every event sequence.
      Only the answer of `fetchMe` sets a session; only the load outcomes and the `error`
      push touch the error cell; the listeners change only with the session. */
  function Step(s: ViewState, e: Event): (r: ViewState)
    ensures PhaseRank(s.phase) <= PhaseRank(r.phase)
    ensures r.session.Some? ==>
      r.session == s.session || (e.MeFetched? && s.phase == FetchingMe && r.session == Some(e.me))
    ensures r.error != s.error ==> e.MeFailed? || e.WorldFetched? || e.WorldFailed? || e.ErrorPushed?
    ensures r.listeners != s.listeners ==> r.session != s.session
  {
    match e
    case MeFetched(me) =>
      if s.phase == FetchingMe
      then Resubscribe(s.session, s.(session := Some(me), phase := FetchingWorld))
      else s
    case MeFailed(message) =>
      if s.phase == FetchingMe then LoadFailed(s, message) else s
    case WorldFetched(w) =>
      if s.phase == FetchingWorld then s.(world := Some(w), error := None, phase := Settled) else s
    case WorldFailed(message) =>
      if s.phase == FetchingWorld then LoadFailed(s, message) else s
    case WorldPushed(payloadWorld) =>
      if Delivered(s, WorldPush) && payloadWorld.Some? then s.(world := payloadWorld) else s
    case XpAppliedPushed => s
    case ErrorPushed(payloadError) =>
      if Delivered(s, ErrorPush)
      then Resubscribe(s.session,
                       s.(error := Some(payloadError.GetOr(RealtimeErrorText)),
                          session := None, world := None, connected := false))
      else s
    case WorldUpdated(w) => s.(world := Some(w))
    case LoggedOut(resolved) =>
      if resolved
      then Resubscribe(s.session, s.(connected := false, session := None, world := None))
      else s
  }

  function Run(s: ViewState, events: seq<Event>): ViewState
    decreases |events|
  {
    if events == [] then s else Run(Step(s, events[0]), events[1..])
  }

  lemma RunOne(s: ViewState, a: Event)
    ensures Run(s, [a]) == Step(s, a)
  {
  }

  lemma RunCons(s: ViewState, a: Event, rest: seq<Event>)
    ensures Run(s, [a] + rest) == Run(Step(s, a), rest)
  {
  }

  /** What holds of every state reachable from mount: a held session has no error, the
      listeners are attached exactly while a session is held, a held session has a
      connected channel, and before `fetchMe` has answered there is neither a session nor
      an error. (The world may already be set then, by a stale `onWorldUpdate`.) */
  ghost predicate Reachable(s: ViewState) {
    && (s.session.Some? ==> s.error.None? && s.connected && s.phase != FetchingMe)
    && s.listeners == (if s.session.Some? then AllPushEvents else {})
    && (s.phase == FetchingMe ==> s.error.None? && s.session.None?)
  }

  lemma InitReachable()
    ensures Reachable(Init())
  {
  }

  lemma StepPreservesReachable(s: ViewState, e: Event)
    requires Reachable(s)
    ensures Reachable(Step(s, e))
  {
  }

  lemma {:induction false} RunPreservesReachable(s: ViewState, events: seq<Event>)
    requires Reachable(s)
    ensures Reachable(Run(s, events))
    decreases |events|
  {
    if events != [] {
      StepPreservesReachable(s, events[0]);
      RunPreservesReachable(Step(s, events[0]), events[1..]);
    }
  }

  /** Since `load` runs once, whatever happens afterwards a held session never coexists
      with an error, so the Error screen is never shown. */
  lemma ErrorScreenUnreachable(events: seq<Event>)
    ensures Run(Init(), events).session.Some? ==> Run(Init(), events).error.None?
    ensures !ScreenOf(Run(Init(), events)).ErrorScreen?
  {
    InitReachable();
    RunPreservesReachable(Init(), events);
  }

  /** The three push listeners are attached exactly while a session is held, and a held
      session always has a connected channel. */
  lemma ListenersFollowSession(events: seq<Event>)
    ensures var s := Run(Init(), events);
      s.listeners == (if s.session.Some? then AllPushEvents else {})
      && (s.session.Some? ==> s.connected)
  {
    InitReachable();
    RunPreservesReachable(Init(), events);
  }

  /** Once `fetchMe` has answered and the session is gone, no event brings it back: the
      screen stays Login whatever `world` and `error` hold. */
  lemma {:induction false} TeardownIsFinal(s: ViewState, events: seq<Event>)
    requires s.session.None? && s.phase != FetchingMe
    ensures Run(s, events).session.None?
    ensures Run(s, events).phase != FetchingMe
    ensures ScreenOf(Run(s, events)) == Login
    decreases |events|
  {
    if events != [] {
      TeardownIsFinal(Step(s, events[0]), events[1..]);
    }
  }

  /** A successful `load`: between the two fetches the screen is Loading with the
      listeners attached; afterwards session is `me`, world is the fetched world and the
      error is null, so the dashboard shows. */
  lemma LoadSucceeds(me: Session, w: WorldState)
    ensures var mid := Run(Init(), [MeFetched(me)]);
      mid.session == Some(me) && mid.world.None? && mid.error.None?
      && mid.connected && mid.listeners == AllPushEvents && ScreenOf(mid) == Loading
    ensures var done := Run(Init(), [MeFetched(me), WorldFetched(w)]);
      done.session == Some(me) && done.world == Some(w) && done.error.None?
      && ScreenOf(done) == Dashboard
  {
    RunOne(Init(), MeFetched(me));
    RunCons(Init(), MeFetched(me), [WorldFetched(w)]);
    RunOne(Step(Init(), MeFetched(me)), WorldFetched(w));
  }

  /** In any reachable state awaiting `fetchMe`, a failure clears both cells, whatever
      world was held, and stores the message; the screen is Login and the channel is left
      as it was (none is open before `fetchMe` answers from mount). */
  lemma LoadFailsAtMe(s: ViewState, message: Option<string>)
    requires Reachable(s) && s.phase == FetchingMe
    ensures var t := Step(s, MeFailed(message));
      t.session.None? && t.world.None? && t.error == message && t.phase == Settled
      && t.connected == s.connected && t.listeners == {} && ScreenOf(t) == Login
    ensures !Step(Init(), MeFailed(message)).connected
  {
  }

  /** In any reachable state awaiting `fetchWorld`, a failure clears both cells, whatever
      world was held, and stores the message, so the screen is Login, not Error. The
      listeners are detached but the channel stays as it was: the catch branch never
      disconnects. */
  lemma LoadFailsAtWorld(s: ViewState, message: Option<string>)
    requires Reachable(s) && s.phase == FetchingWorld
    ensures var t := Step(s, WorldFailed(message));
      t.session.None? && t.world.None? && t.error == message && t.phase == Settled
      && t.connected == s.connected && t.listeners == {} && ScreenOf(t) == Login
  {
  }

  /** A `world` push that lands between the two fetches shows the dashboard; a failing
      `fetchWorld` then drops that cached world and shows Login, with the channel still
      connected. */
  lemma CachedWorldDroppedOnFailure(me: Session, w0: WorldState, message: Option<string>)
    ensures var mid := Run(Init(), [MeFetched(me), WorldPushed(Some(w0))]);
      mid.world == Some(w0) && ScreenOf(mid) == Dashboard
    ensures var s := Run(Init(), [MeFetched(me), WorldPushed(Some(w0)), WorldFailed(message)]);
      s.session.None? && s.world.None? && s.error == message && s.connected
      && s.listeners == {} && ScreenOf(s) == Login
  {
    var s1 := Step(Init(), MeFetched(me));
    var s2 := Step(s1, WorldPushed(Some(w0)));
    RunCons(Init(), MeFetched(me), [WorldPushed(Some(w0))]);
    RunOne(s1, WorldPushed(Some(w0)));
    RunCons(Init(), MeFetched(me), [WorldPushed(Some(w0)), WorldFailed(message)]);
    RunCons(s1, WorldPushed(Some(w0)), [WorldFailed(message)]);
    RunOne(s2, WorldFailed(message));
  }

  /** A `world` push replaces the world wholesale when its `world` field is truthy and its
      listener is attached, and otherwise changes nothing; session, error, phase and channel
      are never touched. */
  lemma WorldPushReplaces(s: ViewState, payloadWorld: Option<WorldState>)
    ensures var t := Step(s, WorldPushed(payloadWorld));
      t.session == s.session && t.error == s.error && t.phase == s.phase
      && t.connected == s.connected && t.listeners == s.listeners
      && t.world == (if Delivered(s, WorldPush) && payloadWorld.Some? then payloadWorld else s.world)
  {
  }

  /** A delivered `error` push clears session and world, stores the payload's message (or
      "Realtime error"), disconnects and detaches: the next screen is Login whatever the
      screen was before. */
  lemma ErrorPushTearsDown(s: ViewState, payloadError: Option<string>)
    requires Reachable(s) && Delivered(s, ErrorPush)
    ensures var t := Step(s, ErrorPushed(payloadError));
      t.session.None? && t.world.None?
      && t.error == Some(if payloadError.Some? then payloadError.value else RealtimeErrorText)
      && !t.connected && t.listeners == {} && t.phase == s.phase
      && ScreenOf(t) == Login
  {
  }

  /** `onWorldUpdate` replaces only the world. */
  lemma WorldUpdateReplacesWorld(s: ViewState, w: WorldState)
    ensures Step(s, WorldUpdated(w)) == s.(world := Some(w))
  {
  }

  /** A completed logout disconnects and clears session and world but leaves the error
      cell as it was; a logout whose request rejected changes nothing. */
  lemma LogoutClears(s: ViewState, resolved: bool)
    ensures var t := Step(s, LoggedOut(resolved));
      if resolved then
        t.session.None? && t.world.None? && t.error == s.error && !t.connected
        && t.listeners == (if s.session.Some? then {} else s.listeners) && t.phase == s.phase
        && ScreenOf(t) == Login
      else t == s
  {
  }

  /** The `xp_applied` push is only logged. */
  lemma XpAppliedChangesNothing(s: ViewState)
    ensures Step(s, XpAppliedPushed) == s
  {
  }

  /** A `fetchWorld` answer arriving after an `error` push has torn the view down still
      writes the world and clears the error message, but the screen stays Login. */
  lemma StaleWorldAfterErrorPush(me: Session, payloadError: Option<string>, w: WorldState)
    ensures var s := Run(Init(), [MeFetched(me), ErrorPushed(payloadError), WorldFetched(w)]);
      s.session.None? && s.world == Some(w) && s.error.None? && !s.connected
      && ScreenOf(s) == Login
  {
    var s1 := Step(Init(), MeFetched(me));
    var s2 := Step(s1, ErrorPushed(payloadError));
    RunCons(Init(), MeFetched(me), [ErrorPushed(payloadError), WorldFetched(w)]);
    RunCons(s1, ErrorPushed(payloadError), [WorldFetched(w)]);
    RunOne(s2, WorldFetched(w));
  }

  /** The view component: its state cells, the channel flag and the attached listeners.
      Each handler updates the cells one by one and then lets the `[session]` effect run. */
  class AppComponent {
    var session: Option<Session>
    var world: Option<WorldState>
    var error: Option<string>
    var phase: LoadPhase
    var connected: bool
    var listeners: set<PushEvent>

    function State(): ViewState
      reads this
    {
      ViewState(session, world, error, phase, connected, listeners)
    }

    function Screen(): Screen
      reads this
    {
      ScreenOf(State())
    }

    /** Mount: all cells null, then `load` starts and awaits `fetchMe`. */
    constructor ()
      ensures State() == Init()
      ensures Screen() == Login
    {
      session := None;
      world := None;
      error := None;
      phase := FetchingMe;
      connected := false;
      listeners := {};
    }

    /** The effect on `[session]`, run after a handler when the session changed. */
    method SyncRealtime(before: Option<Session>)
      modifies this
      ensures State() == Resubscribe(before, old(State()))
    {
      if before != session {
        // cleanup of the previous run: socket.off for world, xp_applied and error
        listeners := {};
        if session.Some? {
          connected := true;
          listeners := AllPushEvents;
        }
      }
    }

    method FetchMeSucceeded(me: Session)
      requires phase == FetchingMe
      modifies this
      ensures State() == Step(old(State()), MeFetched(me))
    {
      var before := session;
      session := Some(me);
      phase := FetchingWorld;
      SyncRealtime(before);
    }

    method FetchWorldSucceeded(w: WorldState)
      requires phase == FetchingWorld
      modifies this
      ensures State() == Step(old(State()), WorldFetched(w))
    {
      world := Some(w);
      error := None;
      phase := Settled;
    }

    /** The catch branch, reached by a failure of either fetch. */
    method LoadThrew(message: Option<string>)
      requires phase != Settled
      modifies this
      ensures old(phase) == FetchingMe ==> State() == Step(old(State()), MeFailed(message))
      ensures old(phase) == FetchingWorld ==> State() == Step(old(State()), WorldFailed(message))
    {
      var before := session;
      session := None;
      world := None;
      error := message;
      phase := Settled;
      SyncRealtime(before);
    }

    method OnWorldPush(payloadWorld: Option<WorldState>)
      modifies this
      ensures State() == Step(old(State()), WorldPushed(payloadWorld))
    {
      if connected && WorldPush in listeners {
        if payloadWorld.Some? {
          world := payloadWorld;
        }
      }
    }

    method OnErrorPush(payloadError: Option<string>)
      modifies this
      ensures State() == Step(old(State()), ErrorPushed(payloadError))
    {
      if connected && ErrorPush in listeners {
        var before := session;
        error := Some(payloadError.GetOr(RealtimeErrorText));
        session := None;
        world := None;
        connected := false;
        SyncRealtime(before);
      }
    }

    method OnWorldUpdate(w: WorldState)
      modifies this
      ensures State() == Step(old(State()), WorldUpdated(w))
    {
      world := Some(w);
    }

    method OnLogout(logoutFetchResolved: bool)
      modifies this
      ensures State() == Step(old(State()), LoggedOut(logoutFetchResolved))
    {
      if logoutFetchResolved {
        var before := session;
        connected := false;
        session := None;
        world := None;
        SyncRealtime(before);
      }
    }
  }
}
