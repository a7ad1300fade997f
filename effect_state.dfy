/*
 * The bookkeeping of the magic lamp effect as values: the table of running
 * animations keyed by window, the set of redirected windows, the current
 * parameters snapshot, and one function per event that says what the event
 * does to them. The class in module Effect is proved against these functions.
 *
 * The deformation model itself is opaque: a record of what it was started
 * with and a `done` flag that only the environment (its clock) sets.
 */
module EffectState {
  import opened Parameters

  /** Identity of a compositor window. */
  type WindowId = nat

  datatype AnimationKind = Minimize | Unminimize

  /** A rectangle with real coordinates; valid when it has positive width
      and height. */
  datatype Rect = Rect(x: real, y: real, width: real, height: real)
  {
    predicate IsValid() { width > 0.0 && height > 0.0 }
  }

  /** The inset applied to the icon rectangle. */
  datatype Margins = Margins(left: real, top: real, right: real, bottom: real)

  /** What the deformation model of one window was started with, and whether
      its animation has completed. */
  datatype Model = Model(
    window: WindowId,
    kind: AnimationKind,
    parameters: Parameters,
    iconMargins: Margins,
    done: bool)

  /** A reference that keeps a minimized window paintable; `NoRef` is the
      null reference a fresh record starts with. */
  datatype VisibleRef = NoRef | HeldFor(window: WindowId)

  /** One record of the animation table. */
  datatype AnimationData = AnimationData(model: Model, visibleRef: VisibleRef)

  /** The effect's state: its own fields and the redirected windows of the
      offscreen effect it extends. */
  datatype State = State(
    parameters: Parameters,
    gridResolution: int,
    animations: map<WindowId, AnimationData>,
    redirected: set<WindowId>)

  /** What the compositor reports about a window when its minimized state
      changes: whether a fullscreen effect is active, the window's icon
      geometry, and the icon margins of the panel frame. */
  datatype WindowEnv = WindowEnv(fullScreenEffectActive: bool, iconGeometry: Rect, iconMargins: Margins)

  /** A window's quad list as a term: the window's own quads, a subdivision
      into a grid, or a deformation by a model. */
  datatype Quads =
    | WindowQuads(window: WindowId)
    | Grid(source: Quads, resolution: int)
    | Deformed(source: Quads, model: Model)

  /** Every record belongs to the window it is stored under, holds at most a
      visibility reference for that same window, and every animated window
      is redirected. */
  predicate Inv(s: State)
  {
    && s.animations.Keys <= s.redirected
    && forall w :: w in s.animations ==>
         && s.animations[w].model.window == w
         && (s.animations[w].visibleRef == NoRef || s.animations[w].visibleRef == HeldFor(w))
  }

  /** Equal records except for the completion flag: the same run of the same animation. */
  predicate SameRun(a: AnimationData, b: AnimationData)
  {
    a.model.(done := b.model.done) == b.model && a.visibleRef == b.visibleRef
  }

  /** The effect right after construction. */
  function Initial(config: Config): (s: State)
    ensures Inv(s)
    ensures s.parameters == ParametersFor(config)
    ensures s.animations == map[] && s.redirected == {}
    ensures s.parameters.squashDuration == config.baseDuration && s.gridResolution == config.gridResolution
  {
    State(ParametersFor(config), config.gridResolution, map[], {})
  }

  /** Reconfiguration replaces the snapshot and the grid resolution only. */
  function Reconfigured(s: State, config: Config): (r: State)
    ensures r.parameters == ParametersFor(config)
    ensures r.parameters.squashDuration == config.baseDuration
    ensures r.parameters.bumpDuration == config.baseDuration
    ensures r.parameters.stretchDuration >= 1
    ensures r.gridResolution == config.gridResolution
    ensures r.animations == s.animations && r.redirected == s.redirected
    ensures Inv(s) ==> Inv(r)
  {
    s.(parameters := ParametersFor(config), gridResolution := config.gridResolution)
  }

  /** The model of a freshly (re)started animation. */
  function Started(w: WindowId, kind: AnimationKind, parameters: Parameters, margins: Margins): (m: Model)
    ensures !m.done && m.window == w && m.kind == kind && m.parameters == parameters
  {
    Model(w, kind, parameters, margins, false)
  }

  /** Whether a minimize or unminimize request may start an animation. */
  predicate MayStart(env: WindowEnv)
  {
    !env.fullScreenEffectActive && env.iconGeometry.IsValid()
  }

  /** A window was minimized. */
  function Minimized(s: State, w: WindowId, env: WindowEnv): (r: State)
    ensures !MayStart(env) ==> r == s
    ensures MayStart(env) ==>
      && r.animations.Keys == s.animations.Keys + {w}
      && r.animations[w].model == Started(w, Minimize, s.parameters, env.iconMargins)
      && r.animations[w].visibleRef == HeldFor(w)
      && r.redirected == s.redirected + {w}
    ensures forall v :: v != w && v in s.animations ==> r.animations[v] == s.animations[v]
    ensures r.parameters == s.parameters && r.gridResolution == s.gridResolution
    ensures Inv(s) ==> Inv(r)
  {
    if !MayStart(env) then s
    else
      var data := AnimationData(Started(w, Minimize, s.parameters, env.iconMargins), HeldFor(w));
      s.(animations := s.animations[w := data], redirected := s.redirected + {w})
  }

  /** A window was unminimized. Unlike minimizing, this does not take a new
      visibility reference: a record that already exists keeps its own, a
      new record has none. */
  function Unminimized(s: State, w: WindowId, env: WindowEnv): (r: State)
    ensures !MayStart(env) ==> r == s
    ensures MayStart(env) ==>
      && r.animations.Keys == s.animations.Keys + {w}
      && r.animations[w].model == Started(w, Unminimize, s.parameters, env.iconMargins)
      && r.animations[w].visibleRef == (if w in s.animations then s.animations[w].visibleRef else NoRef)
      && r.redirected == s.redirected + {w}
    ensures forall v :: v != w && v in s.animations ==> r.animations[v] == s.animations[v]
    ensures r.parameters == s.parameters && r.gridResolution == s.gridResolution
    ensures Inv(s) ==> Inv(r)
  {
    if !MayStart(env) then s
    else
      var ref := if w in s.animations then s.animations[w].visibleRef else NoRef;
      var data := AnimationData(Started(w, Unminimize, s.parameters, env.iconMargins), ref);
      s.(animations := s.animations[w := data], redirected := s.redirected + {w})
  }

  /** The minimized-state notification of a window, dispatched on the
      window's current minimized flag. */
  function MinimizedChanged(s: State, w: WindowId, isMinimized: bool, env: WindowEnv): (r: State)
    ensures !MayStart(env) ==> r == s
    ensures MayStart(env) ==>
      && w in r.animations
      && r.animations[w].model.kind == (if isMinimized then Minimize else Unminimize)
      && r.animations[w].model.parameters == s.parameters
      && !r.animations[w].model.done
    ensures Inv(s) ==> Inv(r)
  {
    if isMinimized then Minimized(s, w, env) else Unminimized(s, w, env)
  }

  /** One frame of window `w`'s animation: the model advances and reports
      through `finished` whether it has completed. Other windows and windows
      without a record are untouched. */
  function Advanced(s: State, w: WindowId, finished: bool): (r: State)
    ensures r.animations.Keys == s.animations.Keys
    ensures w in s.animations ==>
      r.animations[w].model.done == finished && SameRun(r.animations[w], s.animations[w])
    ensures forall v :: v != w && v in s.animations ==> r.animations[v] == s.animations[v]
    ensures w !in s.animations ==> r == s
    ensures r.redirected == s.redirected && r.parameters == s.parameters && r.gridResolution == s.gridResolution
    ensures Inv(s) ==> Inv(r)
  {
    if w in s.animations then
      var data := s.animations[w];
      s.(animations := s.animations[w := data.(model := data.model.(done := finished))])
    else s
  }

  /** The windows whose animation has completed. */
  function Finished(s: State): set<WindowId>
  {
    set w | w in s.animations && s.animations[w].model.done
  }

  /** After painting the screen: completed animations are dropped and their
      windows unredirected. */
  function PostPainted(s: State): (r: State)
    ensures forall w :: w in r.animations <==> w in s.animations && !s.animations[w].model.done
    ensures forall w :: w in r.animations ==> r.animations[w] == s.animations[w]
    ensures forall w :: w in r.redirected <==> w in s.redirected && !(w in s.animations && s.animations[w].model.done)
    ensures r.parameters == s.parameters && r.gridResolution == s.gridResolution
    ensures Inv(s) ==> Inv(r)
  {
    s.(animations := map w | w in s.animations && !s.animations[w].model.done :: s.animations[w],
       redirected := s.redirected - Finished(s))
  }

  /** A window was deleted: its record goes, whatever its progress. */
  function Deleted(s: State, w: WindowId): (r: State)
    ensures forall v :: v in r.animations <==> v in s.animations && v != w
    ensures forall v :: v in r.animations ==> r.animations[v] == s.animations[v]
    ensures w !in s.animations ==> r == s
    ensures r.redirected == s.redirected && r.parameters == s.parameters && r.gridResolution == s.gridResolution
    ensures Inv(s) ==> Inv(r)
  {
    s.(animations := s.animations - {w})
  }

  /** The active fullscreen effect changed; when one became active, every
      animation is cancelled and its window unredirected. */
  function FullScreenEffectChanged(s: State, active: bool): (r: State)
    ensures !active ==> r == s
    ensures active ==> r.animations == map[]
    ensures active ==> forall w :: w in r.redirected <==> w in s.redirected && w !in s.animations
    ensures r.parameters == s.parameters && r.gridResolution == s.gridResolution
    ensures Inv(s) ==> Inv(r)
  {
    if active then s.(animations := map[], redirected := s.redirected - s.animations.Keys) else s
  }

  /** The events the effect reacts to. */
  datatype Event =
    | Reconfigure(config: Config)
    | MinimizedChangedOf(window: WindowId, isMinimized: bool, env: WindowEnv)
    | PrePaintWindow(window: WindowId, finished: bool)
    | PostPaintScreen
    | WindowDeleted(window: WindowId)
    | ActiveFullScreenEffectChanged(active: bool)

  function Step(s: State, e: Event): State
  {
    match e
    case Reconfigure(config) => Reconfigured(s, config)
    case MinimizedChangedOf(w, isMinimized, env) => MinimizedChanged(s, w, isMinimized, env)
    case PrePaintWindow(w, finished) => Advanced(s, w, finished)
    case PostPaintScreen => PostPainted(s)
    case WindowDeleted(w) => Deleted(s, w)
    case ActiveFullScreenEffectChanged(active) => FullScreenEffectChanged(s, active)
  }

  /** The state after a sequence of events. */
  function Run(s: State, events: seq<Event>): State
    decreases |events|
  {
    if events == [] then s else Run(Step(s, events[0]), events[1..])
  }

  /** Whether `e` may (re)start an animation of window `w`. */
  predicate Restarts(e: Event, w: WindowId)
  {
    e.MinimizedChangedOf? && e.window == w
  }

  /** Every step keeps the invariant. */
  lemma StepPreservesInv(s: State, e: Event)
    requires Inv(s)
    ensures Inv(Step(s, e))
  {
  }

  /** Every sequence of events keeps the invariant: one record per window,
      owned by that window, and every animated window redirected. */
  lemma {:induction false} RunPreservesInv(s: State, events: seq<Event>)
    requires Inv(s)
    ensures Inv(Run(s, events))
    decreases |events|
  {
    if events != [] {
      StepPreservesInv(s, events[0]);
      RunPreservesInv(Step(s, events[0]), events[1..]);
    }
  }

  /** A step that does not restart window `w` leaves its record, if it
      survives, the same run: in particular a reconfiguration does not
      change the parameters an animation was started with. */
  lemma StepKeepsRun(s: State, e: Event, w: WindowId)
    requires w in s.animations && !Restarts(e, w)
    ensures w in Step(s, e).animations ==> SameRun(Step(s, e).animations[w], s.animations[w])
  {
  }

  /** An in-flight animation keeps the snapshot, kind, margins and
      visibility reference it was started with until it is restarted or
      removed, however often the effect is reconfigured meanwhile. */
  lemma {:induction false} RunKeepsCapturedRun(s: State, events: seq<Event>, w: WindowId)
    requires w in s.animations
    requires forall i :: 0 <= i < |events| ==> !Restarts(events[i], w)
    ensures w in Run(s, events).animations ==> SameRun(Run(s, events).animations[w], s.animations[w])
    decreases |events|
  {
    if events != [] {
      var next := Step(s, events[0]);
      StepKeepsRun(s, events[0], w);
      if w in next.animations {
        RunKeepsCapturedRun(next, events[1..], w);
      } else {
        RunKeepsAbsent(next, events[1..], w);
      }
    }
  }

  /** A window without a record gets none until it is minimized or
      unminimized again; in particular a deleted window's record never
      comes back by itself. */
  lemma {:induction false} RunKeepsAbsent(s: State, events: seq<Event>, w: WindowId)
    requires w !in s.animations
    requires forall i :: 0 <= i < |events| ==> !Restarts(events[i], w)
    ensures w !in Run(s, events).animations
    decreases |events|
  {
    if events != [] {
      assert !Restarts(events[0], w);
      RunKeepsAbsent(Step(s, events[0]), events[1..], w);
    }
  }

  /** Whether `e` is a minimized-state change that arrives while a
      fullscreen effect is active. */
  predicate UnderFullScreen(e: Event)
  {
    e.MinimizedChangedOf? ==> e.env.fullScreenEffectActive
  }

  /** Once a fullscreen effect takes over, no animation runs for as long as
      every later minimized-state change still finds it active. */
  lemma {:induction false} FullScreenKeepsTableEmpty(s: State, events: seq<Event>)
    requires forall i :: 0 <= i < |events| ==> UnderFullScreen(events[i])
    ensures Run(s, [ActiveFullScreenEffectChanged(true)] + events).animations == map[]
  {
    var cleared := Step(s, ActiveFullScreenEffectChanged(true));
    assert ([ActiveFullScreenEffectChanged(true)] + events)[1..] == events;
    EmptyTableStaysEmpty(cleared, events);
  }

  lemma {:induction false} EmptyTableStaysEmpty(s: State, events: seq<Event>)
    requires s.animations == map[]
    requires forall i :: 0 <= i < |events| ==> UnderFullScreen(events[i])
    ensures Run(s, events).animations == map[]
    decreases |events|
  {
    if events != [] {
      var next := Step(s, events[0]);
      assert UnderFullScreen(events[0]);
      assert next.animations == map[];
      EmptyTableStaysEmpty(next, events[1..]);
    }
  }
}
