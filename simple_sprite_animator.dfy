/**
 * `SimpleSpriteAnimator`: shows the sprites of a list one after the other at a fixed frame
 * rate, either in a loop or once. The frame time accumulates per `Update`; one frame is shown
 * per frame duration at most, and a one-shot animation reports its completion instead of
 * wrapping around, then disables itself. The frame clock (`Time.deltaTime`) and the random
 * start frame are parameters.
 */
module SimpleSpriteAnimators {
  import opened Wrappers
  import opened Sprites
  import opened Arithmetic

  /** `1f / frameRate`: a number of seconds, or positive infinity for a frame rate of 0. */
  datatype FrameDuration = Seconds(s: real) | Infinite

  /** The frame duration of a frame rate; its product with the rate is one second. */
  function FrameDurationOf(frameRate: int): (d: FrameDuration)
    ensures d.Infinite? <==> frameRate == 0
    ensures d.Seconds? ==> d.s * (frameRate as real) == 1.0
  {
    if frameRate == 0 then Infinite else Seconds(1.0 / frameRate as real)
  }

  /** `timer < frameDuration` is false: a frame step is due. It never is with an infinite
      duration. */
  predicate StepDue(timer: real, d: FrameDuration) {
    d.Seconds? && timer >= d.s
  }

  /** What `Random.Range(0, count)` can return: a value in [0, count), or 0 when count is 0. */
  predicate InRandomRange(draw: int, count: nat) {
    if count == 0 then draw == 0 else 0 <= draw < count
  }

  /**
   * The frame after `cur` in an animation of `count` frames, `(cur + 1) % count`; `None` when
   * a one-shot animation would wrap around to the first frame. From a frame of the
   * animation, that is the next frame, or the first one (looping) or nothing (one-shot) after
   * the last one.
   */
  function NextFrame(cur: nat, count: nat, loop: bool): (r: Option<nat>)
    requires count > 0
    ensures r.Some? ==> r.value < count
    ensures cur < count ==>
      r == if cur + 1 < count then Some(cur + 1) else if loop then Some(0) else None
  {
    var next := (cur + 1) % count;
    assert cur < count ==> next == if cur + 1 < count then cur + 1 else 0 by {
      if cur < count {
        ModSucc(cur, count);
        ModUnique(cur, count, 0, cur);
      }
    }
    if !loop && next == 0 then None else Some(next)
  }

  /** The frame shown after `k` steps of a looping animation that starts at the first frame. */
  function LoopFrame(count: nat, k: nat): (r: nat)
    requires count > 0
    ensures r < count
  {
    if k == 0 then 0 else NextFrame(LoopFrame(count, k - 1), count, true).value
  }

  /** A looping animation cycles through every frame in order: step k shows frame k mod count. */
  lemma {:induction false} LoopVisitsEveryFrame(count: nat, k: nat)
    requires count > 0
    ensures LoopFrame(count, k) == k % count
  {
    if k == 0 {
      ModUnique(0, count, 0, 0);
    } else {
      LoopVisitsEveryFrame(count, k - 1);
      ModSucc(k - 1, count);
    }
  }

  /** `SimpleSpriteAnimator`. The serialized settings are constants: the animator never
      changes them. `completions` counts the `onComplete` invocations. */
  class SimpleSpriteAnimator {
    const frameRate: int
    const loop: bool
    const randomStartFrame: bool
    const destroyOnComplete: bool
    const sprites: seq<SpriteId>
    var currentFrameIndex: int
    var timer: real
    var frameDuration: FrameDuration
    var startFrameIndex: int
    var enabled: bool
    var shownSprite: Option<SpriteId>
    var completions: nat
    var destroyRequested: bool

    /** The current frame is a frame of the animation (0 when there is none), and so is the
        start frame. */
    predicate Valid()
      reads this
    {
      0 <= currentFrameIndex && (|sprites| > 0 ==> currentFrameIndex < |sprites|) &&
      InRandomRange(startFrameIndex, |sprites|)
    }

    /** An enabled component with the given settings, at the first frame. */
    constructor (frameRate: int, loop: bool, randomStartFrame: bool, destroyOnComplete: bool,
                 sprites: seq<SpriteId>)
      ensures this.frameRate == frameRate && this.loop == loop && this.sprites == sprites
      ensures this.randomStartFrame == randomStartFrame && this.destroyOnComplete == destroyOnComplete
      ensures currentFrameIndex == 0 && startFrameIndex == 0 && timer == 0.0
      ensures frameDuration == Seconds(0.0) && enabled && shownSprite.None?
      ensures completions == 0 && !destroyRequested
      ensures Valid()
    {
      this.frameRate := frameRate;
      this.loop := loop;
      this.randomStartFrame := randomStartFrame;
      this.destroyOnComplete := destroyOnComplete;
      this.sprites := sprites;
      currentFrameIndex := 0;
      timer := 0.0;
      frameDuration := Seconds(0.0);
      startFrameIndex := 0;
      enabled := true;
      shownSprite := None;
      completions := 0;
      destroyRequested := false;
    }

    /**
     * `OnEnable`: the frame duration follows the frame rate; with a random start frame, the
     * start frame is the one drawn; the start frame is then shown.
     */
    method OnEnable(draw: int)
      requires Valid()
      requires randomStartFrame ==> InRandomRange(draw, |sprites|)
      modifies this`frameDuration, this`startFrameIndex, this`currentFrameIndex, this`shownSprite
      ensures Valid()
      ensures frameDuration == FrameDurationOf(frameRate)
      ensures startFrameIndex == if randomStartFrame then draw else old(startFrameIndex)
      ensures |sprites| > 0 ==> currentFrameIndex == startFrameIndex && shownSprite == Some(sprites[startFrameIndex])
      ensures |sprites| == 0 ==> currentFrameIndex == old(currentFrameIndex) && shownSprite == old(shownSprite)
    {
      frameDuration := FrameDurationOf(frameRate);
      if randomStartFrame {
        startFrameIndex := draw;
      }
      SetSprite(startFrameIndex);
    }

    /**
     * `Update`: nothing without sprites. Otherwise the frame time grows by the delta; when a
     * step is due, exactly one frame duration is taken off, however long the frame was, and
     * the animation moves one frame on. A one-shot animation that would wrap around instead
     * stays on its last frame, invokes `onComplete` once, disables itself and, when so
     * configured, asks for its object to be destroyed.
     */
    method Update(deltaTime: real)
      requires Valid()
      modifies this`timer, this`currentFrameIndex, this`shownSprite, this`enabled,
               this`completions, this`destroyRequested
      ensures Valid()
      ensures |sprites| == 0 ==>
        timer == old(timer) && currentFrameIndex == old(currentFrameIndex) &&
        shownSprite == old(shownSprite) && enabled == old(enabled) &&
        completions == old(completions) && destroyRequested == old(destroyRequested)
      ensures |sprites| > 0 ==>
        var t := old(timer) + deltaTime;
        var due := StepDue(t, frameDuration);
        var next := NextFrame(old(currentFrameIndex), |sprites|, loop);
        timer == (if due then t - frameDuration.s else t) &&
        (!due || next.Some? ==> completions == old(completions) && enabled == old(enabled) &&
                                destroyRequested == old(destroyRequested)) &&
        (!due || next.None? ==> currentFrameIndex == old(currentFrameIndex) && shownSprite == old(shownSprite)) &&
        (due && next.Some? ==> currentFrameIndex == next.value && shownSprite == Some(sprites[next.value])) &&
        (due && next.None? ==> completions == old(completions) + 1 && !enabled &&
                               destroyRequested == (old(destroyRequested) || destroyOnComplete))
    {
      if |sprites| == 0 {
        return;
      }
      timer := timer + deltaTime;
      if !StepDue(timer, frameDuration) {
        return;
      }
      timer := timer - frameDuration.s;
      var next := NextFrame(currentFrameIndex, |sprites|, loop);
      if next.None? {
        completions := completions + 1;
        enabled := false;
        if destroyOnComplete {
          destroyRequested := true;
        }
        return;
      }
      SetSprite(next.value);
    }

    /** `SetSprite`: an index past the last sprite is ignored; any other is shown. */
    method SetSprite(i: nat)
      requires Valid()
      modifies this`currentFrameIndex, this`shownSprite
      ensures Valid()
      ensures i < |sprites| ==> currentFrameIndex == i && shownSprite == Some(sprites[i])
      ensures i >= |sprites| ==> currentFrameIndex == old(currentFrameIndex) && shownSprite == old(shownSprite)
    {
      if i >= |sprites| {
        return;
      }
      currentFrameIndex := i;
      shownSprite := Some(sprites[i]);
    }
  }

  /**
   * A one-shot animation at a positive frame rate, updated by exactly one frame duration per
   * call while enabled, shows each of its frames once, in order, then completes once and
   * disables itself.
   */
  method PlayOnce(sprites: seq<SpriteId>, frameRate: int)
    returns (framesShown: seq<int>, completions: nat, enabled: bool)
    requires |sprites| > 0 && frameRate > 0
    ensures |framesShown| == |sprites| && forall k :: 0 <= k < |sprites| ==> framesShown[k] == k
    ensures completions == 1 && !enabled
  {
    var animator := new SimpleSpriteAnimator(frameRate, false, false, false, sprites);
    animator.OnEnable(0);
    var d := animator.frameDuration.s;
    framesShown := [animator.currentFrameIndex];
    var i := 1;
    while i < |sprites|
      invariant 1 <= i <= |sprites|
      invariant animator.Valid() && animator.frameDuration == Seconds(d)
      invariant animator.currentFrameIndex == i - 1 && animator.timer == 0.0
      invariant animator.completions == 0 && animator.enabled
      invariant |framesShown| == i && forall k :: 0 <= k < i ==> framesShown[k] == k
    {
      animator.Update(d);
      framesShown := framesShown + [animator.currentFrameIndex];
      i := i + 1;
    }
    animator.Update(d);
    completions := animator.completions;
    enabled := animator.enabled;
  }
}
