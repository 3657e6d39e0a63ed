/**
 * The Core Animation fan: a view that spins its fan image by installing a
 * repeating rotation on the image's layer under the key "rotation". A flag
 * guards starting and stopping, so each is idempotent. The shadow and scale
 * animations that accompany them are cosmetic and not modelled.
 */
module FanAnimation {
  import opened Optional

  /** The key the rotation is installed under on the fan image's layer. */
  const RotationKey: string := "rotation"

  /**
   * A full-turn rotation about the z axis that repeats forever. Only the
   * requested speed is kept; its duration is 2.0 / speed seconds.
   */
  datatype Rotation = Rotation(speed: real)

  /**
   * The view's state: whether it is animating, the rotation it created last
   * (kept after a stop), and the animations installed on the fan image's layer, by key.
   */
  datatype FanView = FanView(isAnimating: bool, rotationAnimation: Option<Rotation>, layerAnimations: map<string, Rotation>)

  /** A freshly created view: idle, no rotation, nothing on the layer. */
  const Initial: FanView := FanView(false, None, map[])

  /** The rotation the view shows is the one it created, and it is present exactly while the view animates. */
  predicate Coherent(v: FanView) {
    && (v.isAnimating <==> RotationKey in v.layerAnimations)
    && (v.isAnimating ==> v.rotationAnimation == Some(v.layerAnimations[RotationKey]))
  }

  /** Starts spinning at `speed` unless the view already spins. */
  function Start(v: FanView, speed: real): (r: FanView)
    ensures r.isAnimating
    ensures v.isAnimating ==> r == v
    ensures !v.isAnimating ==>
      r.rotationAnimation == Some(Rotation(speed))
      && RotationKey in r.layerAnimations && r.layerAnimations[RotationKey] == Rotation(speed)
      && r.layerAnimations - {RotationKey} == v.layerAnimations - {RotationKey}
  {
    if v.isAnimating then v
    else
      var rotation := Rotation(speed);
      v.(isAnimating := true, rotationAnimation := Some(rotation),
         layerAnimations := v.layerAnimations[RotationKey := rotation])
  }

  /** Stops spinning unless the view is idle; the created rotation is kept, only its installation goes. */
  function Stop(v: FanView): (r: FanView)
    ensures !r.isAnimating
    ensures !v.isAnimating ==> r == v
    ensures v.isAnimating ==>
      RotationKey !in r.layerAnimations && r.layerAnimations == v.layerAnimations - {RotationKey}
      && r.rotationAnimation == v.rotationAnimation
  {
    if !v.isAnimating then v
    else v.(isAnimating := false, layerAnimations := v.layerAnimations - {RotationKey})
  }

  /** Changes the speed of a spinning view by stopping and restarting it; an idle view is left alone. */
  function ChangeSpeed(v: FanView, speed: real): (r: FanView)
    ensures !v.isAnimating ==> r == v
    ensures v.isAnimating ==>
      r.isAnimating && r.rotationAnimation == Some(Rotation(speed))
      && RotationKey in r.layerAnimations && r.layerAnimations[RotationKey] == Rotation(speed)
      && r.layerAnimations - {RotationKey} == v.layerAnimations - {RotationKey}
  {
    if v.isAnimating then Start(Stop(v), speed) else v
  }

  /** Starting a spinning view, or stopping an idle one, changes nothing. */
  lemma StartStopIdempotent(v: FanView, speed: real, speed': real)
    ensures Start(Start(v, speed), speed') == Start(v, speed)
    ensures Stop(Stop(v)) == Stop(v)
  {
  }

  /**
   * Starting an idle view and stopping it again leaves it idle with the layer
   * as it was; the one trace left is the rotation the view keeps.
   */
  lemma StartThenStop(v: FanView, speed: real)
    requires !v.isAnimating && RotationKey !in v.layerAnimations
    ensures Stop(Start(v, speed)) == v.(rotationAnimation := Some(Rotation(speed)))
  {
    assert v.layerAnimations[RotationKey := Rotation(speed)] - {RotationKey} == v.layerAnimations;
  }

  /** Every operation keeps the view coherent. */
  lemma OperationsKeepCoherent(v: FanView, speed: real)
    requires Coherent(v)
    ensures Coherent(Start(v, speed)) && Coherent(Stop(v)) && Coherent(ChangeSpeed(v, speed))
  {
  }

  /** The fan view. `layerAnimations` stands for the animations on its fan image's layer. */
  class FanAnimationView {
    var isAnimating: bool
    var rotationAnimation: Option<Rotation>
    var layerAnimations: map<string, Rotation>

    function State(): FanView
      reads this
    {
      FanView(isAnimating, rotationAnimation, layerAnimations)
    }

    predicate Valid()
      reads this
    {
      Coherent(State())
    }

    constructor ()
      ensures Valid() && State() == Initial
    {
      isAnimating, rotationAnimation, layerAnimations := false, None, map[];
    }

    method StartAnimating(speed: real := 1.0)
      requires Valid()
      modifies this
      ensures Valid() && State() == Start(old(State()), speed)
    {
      if isAnimating {
        return;
      }
      isAnimating := true;
      rotationAnimation := Some(Rotation(speed));
      layerAnimations := layerAnimations[RotationKey := rotationAnimation.value];
    }

    method StopAnimating()
      requires Valid()
      modifies this
      ensures Valid() && State() == Stop(old(State()))
    {
      if !isAnimating {
        return;
      }
      isAnimating := false;
      layerAnimations := layerAnimations - {RotationKey};
    }

    method SetSpeed(speed: real)
      requires Valid()
      modifies this
      ensures Valid() && State() == ChangeSpeed(old(State()), speed)
    {
      if isAnimating {
        StopAnimating();
        StartAnimating(speed);
      }
    }
  }
}
