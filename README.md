# Yet Another Magic Lamp: the effect's animation bookkeeping

This project models the controller half of the KWin "magic lamp" effect.
When a window is minimized or unminimized, the effect deforms the window's
surface toward or away from its taskbar icon. The controller decides which
windows are animated. It keeps one animation record per window, redirects
animated windows into offscreen textures, advances each record once per
frame, and drops records when they complete, when their window is deleted,
or when a fullscreen effect takes over. On reconfiguration it rebuilds the
parameters snapshot that later animations copy.

The deformation model (`Model`) is opaque here. A record stores what its
model was started with: the window, the kind (minimize or unminimize), the
parameters snapshot and the icon margins. It also stores a `done` flag that
only the model's clock sets. Each frame, an environment input says whether
the model reports completion.

Three modules:

- `Parameters` (parameters.dfy): easing-curve tags, the curve selector, the
  stretch-duration rounding, and the snapshot built from the configured values.
- `EffectState` (effect_state.dfy): the effect's state as a value. It has one
  function per event, giving the new state. An invariant says each record
  belongs to the window it is stored under, and every animated window is
  redirected. The module also has a `Run` over event sequences, with lemmas
  proved by induction on those sequences.
- `Effect` (effect.dfy): the class `MagicLampEffect`. Its fields are the ones
  the C++ object updates in place: the snapshot, the grid resolution, the
  animation table (a `map`) and the redirected windows (a `set`). Each method
  is proved to change the abstract state exactly as the matching
  `EffectState` function says, and to keep the invariant. The two loops,
  in `PostPaintScreen` and `SlotActiveFullScreenEffectChanged`, carry their
  own invariants.

Three behaviours of the code that the model keeps as written:

- Unminimizing takes no visibility reference. A record that already exists
  keeps the reference its earlier minimize took. A new record has none.
- Deleting a window removes its record but does not unredirect it in this
  class. So the invariant is "animated windows are redirected", not equality.
- The icon rectangle is checked by the controller before the model is touched.
  A rectangle is valid when its width and height are both positive.

Inputs that come from outside are parameters:

- whether a fullscreen effect is active;
- the window's icon geometry and minimized flag;
- the panel frame's icon margins;
- the completion reported by the model each frame;
- the configured values, with the base duration already scaled by the
  global animation speed.

## Model

| member | source | states |
|---|---|---|
| `Parameters.Selector` | src/YetAnotherMagicLampEffect.cc:32-42 | every curve kind has a ShapeCurve enumerator in 0..8 |
| `Parameters.CurveForSelector` | src/YetAnotherMagicLampEffect.cc:76-124 | selector 0..8 gives the curve whose enumerator it is (8 is the Bezier spline with control points (0.3,0), (0.7,1), (1,1)); any other selector gives InOutSine; the result is always a selectable curve |
| `Parameters.CurveRoundTrip` | src/YetAnotherMagicLampEffect.cc:78-119 | every selectable curve is produced by its own enumerator |
| `Parameters.CurveForSelectorInjective` | src/YetAnotherMagicLampEffect.cc:99-123 | two selectors give the same curve only if they are equal, or if both are the sine enumerator or out of range |
| `Parameters.RoundedSevenTenths` | src/YetAnotherMagicLampEffect.cc:129 | the result is within half a millisecond of 0.7 * base, and ties round away from zero |
| `Parameters.RoundingIsUnique` | src/YetAnotherMagicLampEffect.cc:129 | the nearest-integer conditions determine the rounded value uniquely |
| `Parameters.StretchDuration` | src/YetAnotherMagicLampEffect.cc:129 | the stretch duration is at least 1 ms; for a positive base it is 0.7 * base rounded and never longer than the base |
| `Parameters.StretchDurationMonotonic` | src/YetAnotherMagicLampEffect.cc:129 | a longer base duration never gives a shorter stretch duration |
| `Parameters.ParametersFor` | src/YetAnotherMagicLampEffect.cc:125-132 | squash and bump durations equal the base; stretch is at least 1 ms and no longer than squash; the curve follows the selector with the sine fallback; shape factor and bump distance are the configured ones |
| `EffectState.Initial` | src/YetAnotherMagicLampEffect.cc:44-64 | a new effect holds the snapshot `ParametersFor` builds from the configuration and the configured grid resolution, animates nothing, redirects nothing, and satisfies the invariant |
| `EffectState.Reconfigured` | src/YetAnotherMagicLampEffect.cc:70-135 | reconfiguration replaces the snapshot with the one `ParametersFor` builds from the new configuration (curve, all three durations, shape factor, bump distance) and sets the grid resolution, leaves the table and the redirected windows unchanged, and keeps the invariant |
| `EffectState.Minimized` | src/YetAnotherMagicLampEffect.cc:208-228 | under an active fullscreen effect or an invalid icon rectangle nothing changes; otherwise the window gets one fresh Minimize record with the current snapshot and a visibility reference, is redirected, and no other record changes |
| `EffectState.Unminimized` | src/YetAnotherMagicLampEffect.cc:230-250 | the same guards; otherwise one fresh Unminimize record with the current snapshot that keeps an existing visibility reference (none for a new record), the window is redirected, and no other record changes |
| `EffectState.MinimizedChanged` | src/YetAnotherMagicLampEffect.cc:257-266 | the window's minimized flag selects the kind of the started animation; the guards still apply |
| `EffectState.Advanced` | src/YetAnotherMagicLampEffect.cc:144-153 | only the window's own record changes, and only in its completion flag; windows without a record leave the state unchanged |
| `EffectState.PostPainted` | src/YetAnotherMagicLampEffect.cc:155-168 | the table keeps exactly the records not done, with unchanged contents; exactly the windows of done records stop being redirected |
| `EffectState.Deleted` | src/YetAnotherMagicLampEffect.cc:252-255 | only the deleted window's record goes, whatever its progress; deleting a window without a record changes nothing |
| `EffectState.FullScreenEffectChanged` | src/YetAnotherMagicLampEffect.cc:268-276 | when a fullscreen effect becomes active, the table is emptied and exactly its windows are unredirected; when none is active, nothing changes |
| `EffectState.StepPreservesInv` | src/YetAnotherMagicLampEffect.h:29-32 | every event keeps each record owned by its key window and every animated window redirected |
| `EffectState.RunPreservesInv` | src/YetAnotherMagicLampEffect.h:29-68 | every sequence of events keeps that invariant |
| `EffectState.StepKeepsRun` | src/YetAnotherMagicLampEffect.cc:125-134 | an event that does not restart a window leaves its surviving record the same run: reconfiguring does not touch it |
| `EffectState.RunKeepsCapturedRun` | src/YetAnotherMagicLampEffect.cc:219-245 | an animation keeps the snapshot, kind, margins and visibility reference it started with until it is restarted or removed, whatever reconfigurations happen meanwhile |
| `EffectState.RunKeepsAbsent` | src/YetAnotherMagicLampEffect.cc:252-255 | a window without a record gets none until its minimized state changes again |
| `EffectState.EmptyTableStaysEmpty` | src/YetAnotherMagicLampEffect.cc:208-212 | an empty table stays empty while every minimized-state change finds a fullscreen effect active |
| `EffectState.FullScreenKeepsTableEmpty` | src/YetAnotherMagicLampEffect.cc:268-276 | after a fullscreen takeover nothing is animated while the fullscreen effect stays active |
| `Effect.MagicLampEffect.constructor` | src/YetAnotherMagicLampEffect.cc:44-64 | the object starts in the initial state |
| `Effect.MagicLampEffect.Reconfigure` | src/YetAnotherMagicLampEffect.cc:70-135 | overwrites only the snapshot and the grid resolution, as `Reconfigured` |
| `Effect.MagicLampEffect.PrePaintWindow` | src/YetAnotherMagicLampEffect.cc:144-153 | marks the window transformed exactly when it has a record, and advances only that record, as `Advanced` |
| `Effect.MagicLampEffect.PostPaintScreen` | src/YetAnotherMagicLampEffect.cc:155-168 | the erase loop leaves the state `PostPainted` describes |
| `Effect.MagicLampEffect.Apply` | src/YetAnotherMagicLampEffect.cc:184-196 | quads of a window without a record pass through untouched; otherwise they are subdivided at the configured grid resolution and deformed by that window's own model |
| `Effect.MagicLampEffect.IsActive` | src/YetAnotherMagicLampEffect.cc:198-201 | the effect is active exactly when some window has a record |
| `Effect.MagicLampEffect.SlotWindowMinimized` | src/YetAnotherMagicLampEffect.cc:208-228 | changes the object as `Minimized` |
| `Effect.MagicLampEffect.SlotWindowUnminimized` | src/YetAnotherMagicLampEffect.cc:230-250 | changes the object as `Unminimized` |
| `Effect.MagicLampEffect.SlotWindowDeleted` | src/YetAnotherMagicLampEffect.cc:252-255 | changes the object as `Deleted` |
| `Effect.MagicLampEffect.MinimizedChanged` | src/YetAnotherMagicLampEffect.cc:259-265 | dispatches on the minimized flag, as `EffectState.MinimizedChanged` |
| `Effect.MagicLampEffect.SlotActiveFullScreenEffectChanged` | src/YetAnotherMagicLampEffect.cc:268-276 | the unredirect loop followed by the clear leaves the state `FullScreenEffectChanged` describes |
| `Effect.MagicLampEffect.RequestedEffectChainPosition` | src/YetAnotherMagicLampEffect.h:71-74 | the requested chain position is always 50 |

The table is a `map` keyed by window (src/YetAnotherMagicLampEffect.h:68).
So at most one record per window is a property of the type, and restarting
a window replaces its record. `Minimized` and `Unminimized` also state that
the set of keys grows by at most that one window.

## Left out

- The deformation model's internals (`advance`, `done`, `needsClip`, `clipRegion`, `apply`): their source is not part of this model. Completion is an input flag, and a deformation is a symbolic `Deformed` term.
- Easing-curve mathematics and the toolkit's Bezier evaluation: these are floating-point library calls. Only the curve tag and the Bezier control points are kept.
- Icon margins: they come from floating-point arithmetic over the panel frame's SVG margins, a foreign call. They are an input that the record stores.
- The clip computed in `paintWindow`: it is never used, so it has no observable effect.
- Compositor plumbing: signal connections, full repaints, the screen paint mask, `supported()`, the grid subdivision (kept as a `Grid` term), and the paint data passed to the model.
- Redirection and visibility references: redirection is set membership only. The visibility reference is a token naming its window.
- The offscreen base class's own handling of deleted windows is not part of this model. A deleted window therefore stays in `redirected`.
- Configuration reading and animation-speed scaling: the scaled base duration is an input.
- The order of the table: the C++ map iterates windows in key order. Neither loop's result depends on that order, so the model iterates in any order.
- Parameters.RoundedSevenTenths: it rounds the exact value 0.7 * base. The source multiplies by the double 0.7, so some exact ties round down. For example, a base of 45 ms gives 31 ms in the source and 32 ms here.
- Parameters.StretchDuration: it is built on that exact rounding, so it shares the same gap with the source's double multiply at some ties.
- EffectState.Started: the model assumes that starting a deformation model clears its completion, so a freshly (re)started record is not done. The model's own source is not part of this model, so this is an assumption, not something read from the code.
