/*
 * The magic lamp effect object. Its fields are updated in place by the
 * compositor's notifications and paint passes; every method is proved to
 * move the abstract State exactly as the matching function of module
 * EffectState says, so the lemmas proved there hold of the object.
 */
module Effect {
  import opened Parameters
  import opened EffectState

  class MagicLampEffect {
    var parameters: Parameters
    var gridResolution: int
    var animations: map<WindowId, AnimationData>
    // the windows the offscreen effect currently renders into a texture
    var redirected: set<WindowId>

    ghost function AbstractState(): State
      reads this
    {
      EffectState.State(parameters, gridResolution, animations, redirected)
    }

    ghost predicate Valid()
      reads this
    {
      Inv(AbstractState())
    }

    /** A new effect has read its configuration and animates nothing. */
    constructor (config: Config)
      ensures Valid()
      ensures AbstractState() == Initial(config)
    {
      parameters := ParametersFor(config);
      gridResolution := config.gridResolution;
      animations := map[];
      redirected := {};
    }

    method Reconfigure(config: Config)
      requires Valid()
      modifies this`parameters, this`gridResolution
      ensures Valid()
      ensures AbstractState() == Reconfigured(old(AbstractState()), config)
    {
      parameters := ParametersFor(config);
      gridResolution := config.gridResolution;
    }

    /** Advances the animation of `w`, if any; `finished` is whether its
        model reports completion at this frame. */
    method PrePaintWindow(w: WindowId, finished: bool) returns (transformed: bool)
      requires Valid()
      modifies this`animations
      ensures Valid()
      ensures transformed <==> w in old(animations)
      ensures AbstractState() == Advanced(old(AbstractState()), w, finished)
    {
      transformed := w in animations;
      if transformed {
        var data := animations[w];
        animations := animations[w := data.(model := data.model.(done := finished))];
      }
    }

    /** Drops every completed animation and unredirects its window. */
    method PostPaintScreen()
      requires Valid()
      modifies this`animations, this`redirected
      ensures Valid()
      ensures AbstractState() == PostPainted(old(AbstractState()))
    {
      var pending := animations.Keys;
      while pending != {}
        invariant pending <= old(animations).Keys
        invariant animations.Keys <= old(animations).Keys
        invariant forall w :: w in old(animations) ==>
          (w in animations <==> w in pending || !old(animations)[w].model.done)
        invariant forall w :: w in animations ==> animations[w] == old(animations)[w]
        invariant forall w :: w in redirected <==>
          w in old(redirected) && !(w in old(animations) && w !in pending && old(animations)[w].model.done)
        decreases pending
      {
        var w :| w in pending;
        if animations[w].model.done {
          redirected := redirected - {w};
          animations := animations - {w};
        }
        pending := pending - {w};
      }
      assert animations == PostPainted(old(AbstractState())).animations;
      assert redirected == PostPainted(old(AbstractState())).redirected;
    }

    /** Hands the quads of `w` on, deformed when `w` is animated. */
    method Apply(w: WindowId, quads: Quads) returns (r: Quads)
      ensures w !in animations ==> r == quads
      ensures w in animations ==> r == Deformed(Grid(quads, gridResolution), animations[w].model)
    {
      if w !in animations {
        return quads;
      }
      r := Grid(quads, gridResolution);
      r := Deformed(r, animations[w].model);
    }

    function IsActive(): (r: bool)
      reads this
      ensures r <==> exists w :: w in animations
    {
      animations != map[]
    }

    method SlotWindowMinimized(w: WindowId, env: WindowEnv)
      requires Valid()
      modifies this`animations, this`redirected
      ensures Valid()
      ensures AbstractState() == Minimized(old(AbstractState()), w, env)
    {
      if env.fullScreenEffectActive {
        return;
      }
      if !env.iconGeometry.IsValid() {
        return;
      }
      var model := Model(w, Minimize, parameters, env.iconMargins, false);
      animations := animations[w := AnimationData(model, HeldFor(w))];
      redirected := redirected + {w};
    }

    method SlotWindowUnminimized(w: WindowId, env: WindowEnv)
      requires Valid()
      modifies this`animations, this`redirected
      ensures Valid()
      ensures AbstractState() == Unminimized(old(AbstractState()), w, env)
    {
      if env.fullScreenEffectActive {
        return;
      }
      if !env.iconGeometry.IsValid() {
        return;
      }
      var ref := if w in animations then animations[w].visibleRef else NoRef;
      var model := Model(w, Unminimize, parameters, env.iconMargins, false);
      animations := animations[w := AnimationData(model, ref)];
      redirected := redirected + {w};
    }

    method SlotWindowDeleted(w: WindowId)
      requires Valid()
      modifies this`animations
      ensures Valid()
      ensures AbstractState() == Deleted(old(AbstractState()), w)
    {
      animations := animations - {w};
    }

    /** The handler connected to a window's minimized-state signal. */
    method MinimizedChanged(w: WindowId, isMinimized: bool, env: WindowEnv)
      requires Valid()
      modifies this`animations, this`redirected
      ensures Valid()
      ensures AbstractState() == EffectState.MinimizedChanged(old(AbstractState()), w, isMinimized, env)
    {
      if isMinimized {
        SlotWindowMinimized(w, env);
      } else {
        SlotWindowUnminimized(w, env);
      }
    }

    /** `active` is whether a fullscreen effect is active now. */
    method SlotActiveFullScreenEffectChanged(active: bool)
      requires Valid()
      modifies this`animations, this`redirected
      ensures Valid()
      ensures AbstractState() == FullScreenEffectChanged(old(AbstractState()), active)
    {
      if active {
        var pending := animations.Keys;
        while pending != {}
          invariant pending <= animations.Keys
          invariant animations == old(animations)
          invariant forall w :: w in redirected <==> w in old(redirected) && (w !in animations || w in pending)
          decreases pending
        {
          var w :| w in pending;
          redirected := redirected - {w};
          pending := pending - {w};
        }
        animations := map[];
      }
    }

    /** Where the effect sits in the compositor's effect chain. */
    function RequestedEffectChainPosition(): (position: int)
      ensures position == 50
    {
      50
    }
  }
}
