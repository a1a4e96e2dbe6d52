/**
 * `MultiStateSpriteAnimator`: a sprite animator with several named clips, one of which is
 * current. The frames of the current clip advance as in `SimpleSpriteAnimator`; when a
 * one-shot clip ends, its own completion event and the animator's fire, and a clip that
 * allows it selects the next clip of the list. Playback then stops and the component is
 * disabled in every case.
 */
module MultiStateSpriteAnimators {
  import opened Wrappers
  import opened Sprites
  import opened SimpleSpriteAnimators

  /** `StateAnimationClip`: serialized settings only, never changed by the animator. */
  class StateAnimationClip {
    const name: string
    const sprites: seq<SpriteId>
    const loop: bool
    const allowNextClip: bool

    constructor (name: string, sprites: seq<SpriteId>, loop: bool, allowNextClip: bool)
      ensures this.name == name && this.sprites == sprites
      ensures this.loop == loop && this.allowNextClip == allowNextClip
    {
      this.name := name;
      this.sprites := sprites;
      this.loop := loop;
      this.allowNextClip := allowNextClip;
    }
  }

  /** The completion events, in the order they fire: the clip's `OnComplete`, then the
      animator's `onComplete`. */
  datatype CompletionEvent = ClipCompleted(clip: StateAnimationClip) | AnimatorCompleted

  /** `Array.IndexOf` on clips (reference equality): the first position of the clip, or -1. */
  function IndexOf(clips: seq<StateAnimationClip>, c: StateAnimationClip): (i: int)
    ensures -1 <= i < |clips|
    ensures i == -1 <==> c !in clips
    ensures i >= 0 ==> clips[i] == c && forall j :: 0 <= j < i ==> clips[j] != c
  {
    if |clips| == 0 then -1
    else if clips[0] == c then 0
    else
      var r := IndexOf(clips[1..], c);
      if r == -1 then -1 else r + 1
  }

  /** The first clip with the given name, if any. */
  function FirstNamed(clips: seq<StateAnimationClip>, clipName: string): (r: Option<nat>)
    ensures r.None? <==> forall j :: 0 <= j < |clips| ==> clips[j].name != clipName
    ensures r.Some? ==> r.value < |clips| && clips[r.value].name == clipName &&
                        forall j :: 0 <= j < r.value ==> clips[j].name != clipName
  {
    if |clips| == 0 then None
    else if clips[0].name == clipName then Some(0)
    else
      var r := FirstNamed(clips[1..], clipName);
      if r.None? then None else Some(r.value + 1)
  }

  /** `MultiStateSpriteAnimator`. `events` records the completion events in order. */
  class MultiStateSpriteAnimator {
    const frameRate: int
    const playOnStart: bool
    const randomStartFrame: bool
    const destroyOnComplete: bool
    const clips: seq<StateAnimationClip>
    var currentClip: StateAnimationClip?
    var currentFrameIndex: int
    var timer: real
    var frameDuration: FrameDuration
    var startFrameIndex: int
    var isPlaying: bool
    var enabled: bool
    var shownSprite: Option<SpriteId>
    var events: seq<CompletionEvent>
    var destroyRequested: bool

    /** `CurrentSprites`: the sprites of the current clip, or none without one. */
    function CurrentSprites(): seq<SpriteId>
      reads this
    {
      if currentClip == null then [] else currentClip.sprites
    }

    /** The current clip is one of the list, and the current frame is one of its frames (0
        when it has none). */
    predicate Valid()
      reads this
    {
      (currentClip != null ==> currentClip in clips) &&
      0 <= currentFrameIndex && (|CurrentSprites()| > 0 ==> currentFrameIndex < |CurrentSprites()|) &&
      0 <= startFrameIndex
    }

    /** An enabled component with the given settings and no current clip. */
    constructor (frameRate: int, playOnStart: bool, randomStartFrame: bool, destroyOnComplete: bool,
                 clips: seq<StateAnimationClip>)
      ensures this.frameRate == frameRate && this.playOnStart == playOnStart && this.clips == clips
      ensures this.randomStartFrame == randomStartFrame && this.destroyOnComplete == destroyOnComplete
      ensures currentClip == null && currentFrameIndex == 0 && startFrameIndex == 0 && timer == 0.0
      ensures frameDuration == Seconds(0.0) && !isPlaying && enabled && shownSprite.None?
      ensures events == [] && !destroyRequested
      ensures Valid()
    {
      this.frameRate := frameRate;
      this.playOnStart := playOnStart;
      this.randomStartFrame := randomStartFrame;
      this.destroyOnComplete := destroyOnComplete;
      this.clips := clips;
      currentClip := null;
      currentFrameIndex := 0;
      timer := 0.0;
      frameDuration := Seconds(0.0);
      startFrameIndex := 0;
      isPlaying := false;
      enabled := true;
      shownSprite := None;
      events := [];
      destroyRequested := false;
    }

    /**
     * `OnEnable`: the frame duration follows the frame rate; the first clip, if any, is
     * selected; the start frame (drawn from the current clip's frames when random) is shown,
     * and playback starts when so configured.
     */
    method OnEnable(draw: int)
      requires Valid()
      requires randomStartFrame ==>
        InRandomRange(draw, if |clips| > 0 then |clips[0].sprites| else |CurrentSprites()|)
      modifies this`frameDuration, this`currentClip, this`enabled, this`isPlaying,
               this`startFrameIndex, this`currentFrameIndex, this`shownSprite
      ensures Valid()
      ensures frameDuration == FrameDurationOf(frameRate)
      ensures |clips| > 0 ==> currentClip == clips[0] && enabled
      ensures |clips| == 0 ==> currentClip == old(currentClip) && enabled == old(enabled)
      ensures startFrameIndex == if randomStartFrame then draw else old(startFrameIndex)
      ensures startFrameIndex < |CurrentSprites()| ==>
        currentFrameIndex == startFrameIndex && shownSprite == Some(CurrentSprites()[startFrameIndex])
      ensures startFrameIndex >= |CurrentSprites()| && |clips| > 0 && |clips[0].sprites| > 0 ==>
        currentFrameIndex == 0 && shownSprite == Some(clips[0].sprites[0])
      ensures startFrameIndex >= |CurrentSprites()| && (|clips| == 0 || |clips[0].sprites| == 0) ==>
        currentFrameIndex == old(currentFrameIndex) && shownSprite == old(shownSprite)
      ensures isPlaying == playOnStart
    {
      frameDuration := FrameDurationOf(frameRate);
      if |clips| > 0 {
        var _ := SetClipAt(0);
      }
      if randomStartFrame {
        startFrameIndex := draw;
      }
      SetSprite(startFrameIndex);
      isPlaying := playOnStart;
    }

    /**
     * `Update`: nothing while stopped or when the current clip has no frames. Otherwise the
     * frame time grows by the delta; when a step is due, one frame duration is taken off and
     * the clip moves one frame on. When a one-shot clip would wrap around, its completion
     * and then the animator's fire, a destroy is requested when so configured, a clip that
     * allows it selects the clip after it in the list (at its first frame), and playback
     * stops with the component disabled whatever the clip allows.
     */
    method Update(deltaTime: real)
      requires Valid()
      modifies this`timer, this`currentFrameIndex, this`shownSprite, this`enabled, this`isPlaying,
               this`currentClip, this`events, this`destroyRequested
      ensures Valid()
      ensures |old(CurrentSprites())| == 0 || !old(isPlaying) ==>
        timer == old(timer) && currentFrameIndex == old(currentFrameIndex) && currentClip == old(currentClip) &&
        enabled == old(enabled) && isPlaying == old(isPlaying) && events == old(events) &&
        shownSprite == old(shownSprite) && destroyRequested == old(destroyRequested)
      ensures |old(CurrentSprites())| > 0 && old(isPlaying) ==>
        var clip := old(currentClip);
        var t := old(timer) + deltaTime;
        var due := StepDue(t, frameDuration);
        var next := NextFrame(old(currentFrameIndex), |clip.sprites|, clip.loop);
        timer == (if due then t - frameDuration.s else t) &&
        (!due || next.Some? ==>
          currentClip == clip && isPlaying && enabled == old(enabled) && events == old(events) &&
          destroyRequested == old(destroyRequested)) &&
        (!due ==> currentFrameIndex == old(currentFrameIndex) && shownSprite == old(shownSprite)) &&
        (due && next.Some? ==> currentFrameIndex == next.value && shownSprite == Some(clip.sprites[next.value])) &&
        (due && next.None? ==>
          !isPlaying && !enabled &&
          events == old(events) + [ClipCompleted(clip), AnimatorCompleted] &&
          destroyRequested == (old(destroyRequested) || destroyOnComplete) &&
          (!clip.allowNextClip ==>
            currentClip == clip && currentFrameIndex == old(currentFrameIndex) && shownSprite == old(shownSprite)) &&
          (clip.allowNextClip ==>
            currentClip == clips[(IndexOf(clips, clip) + 1) % |clips|] &&
            (|currentClip.sprites| > 0 ==> currentFrameIndex == 0 && shownSprite == Some(currentClip.sprites[0])) &&
            (|currentClip.sprites| == 0 ==>
              currentFrameIndex == old(currentFrameIndex) && shownSprite == old(shownSprite))))
    {
      if |CurrentSprites()| == 0 || !isPlaying {
        return;
      }
      var clip := currentClip;
      timer := timer + deltaTime;
      if !StepDue(timer, frameDuration) {
        return;
      }
      timer := timer - frameDuration.s;
      var next := NextFrame(currentFrameIndex, |clip.sprites|, clip.loop);
      if next.None? {
        CompleteClip();
        return;
      }
      SetSprite(next.value);
    }

    /**
     * The end of a one-shot clip in `Update`: both completion events are raised, the next clip
     * is selected when the clip allows it, and playback stops with the component disabled.
     */
    method CompleteClip()
      requires Valid() && currentClip != null
      modifies this`currentFrameIndex, this`shownSprite, this`enabled, this`isPlaying,
               this`currentClip, this`events, this`destroyRequested
      ensures Valid()
      ensures var clip := old(currentClip);
        !isPlaying && !enabled &&
        events == old(events) + [ClipCompleted(clip), AnimatorCompleted] &&
        destroyRequested == (old(destroyRequested) || destroyOnComplete) &&
        (!clip.allowNextClip ==>
          currentClip == clip && currentFrameIndex == old(currentFrameIndex) && shownSprite == old(shownSprite)) &&
        (clip.allowNextClip ==>
          currentClip == clips[(IndexOf(clips, clip) + 1) % |clips|] &&
          (|currentClip.sprites| > 0 ==> currentFrameIndex == 0 && shownSprite == Some(currentClip.sprites[0])) &&
          (|currentClip.sprites| == 0 ==>
            currentFrameIndex == old(currentFrameIndex) && shownSprite == old(shownSprite)))
    {
      var clip := currentClip;
      enabled := clip.allowNextClip;
      events := events + [ClipCompleted(clip), AnimatorCompleted];
      if destroyOnComplete {
        destroyRequested := true;
      }
      if clip.allowNextClip {
        var currentClipIndex := IndexOf(clips, clip);
        var _ := SetClipAt((currentClipIndex + 1) % |clips|);
      }
      isPlaying := false;
      enabled := false;
    }

    /**
     * `SetClip(string)`: the first clip with that name is selected as by `SetClip(int)`; when
     * no clip has that name, the component is disabled and nothing else changes.
     */
    method SetClip(clipName: string)
      requires Valid()
      modifies this`enabled, this`isPlaying, this`currentClip, this`currentFrameIndex, this`shownSprite
      ensures Valid()
      ensures match FirstNamed(clips, clipName)
        case None =>
          !enabled && isPlaying == old(isPlaying) && currentClip == old(currentClip) &&
          currentFrameIndex == old(currentFrameIndex) && shownSprite == old(shownSprite)
        case Some(i) =>
          enabled && isPlaying && currentClip == clips[i] &&
          (|clips[i].sprites| > 0 ==> currentFrameIndex == 0 && shownSprite == Some(clips[i].sprites[0])) &&
          (|clips[i].sprites| == 0 ==> currentFrameIndex == old(currentFrameIndex) && shownSprite == old(shownSprite))
    {
      var index := 0;
      while index < |clips|
        invariant 0 <= index <= |clips|
        invariant forall j :: 0 <= j < index ==> clips[j].name != clipName
      {
        if clips[index].name == clipName {
          var _ := SetClipAt(index);
          return;
        }
        index := index + 1;
      }
      enabled := false;
    }

    /**
     * `SetClip(int)`: an index outside the list throws, changing nothing (`outOfRange`).
     * Otherwise the component is enabled and playing, the clip is current and its first
     * frame, if it has one, is shown; the frame time is kept.
     */
    method SetClipAt(clipIndex: int) returns (outOfRange: bool)
      requires Valid()
      modifies this`enabled, this`isPlaying, this`currentClip, this`currentFrameIndex, this`shownSprite
      ensures Valid()
      ensures outOfRange <==> !(0 <= clipIndex < |clips|)
      ensures outOfRange ==>
        enabled == old(enabled) && isPlaying == old(isPlaying) && currentClip == old(currentClip) &&
        currentFrameIndex == old(currentFrameIndex) && shownSprite == old(shownSprite)
      ensures !outOfRange ==>
        enabled && isPlaying && currentClip == clips[clipIndex] &&
        (|clips[clipIndex].sprites| > 0 ==>
          currentFrameIndex == 0 && shownSprite == Some(clips[clipIndex].sprites[0])) &&
        (|clips[clipIndex].sprites| == 0 ==>
          currentFrameIndex == old(currentFrameIndex) && shownSprite == old(shownSprite))
    {
      if clipIndex >= |clips| || clipIndex < 0 {
        return true;
      }
      enabled := true;
      isPlaying := true;
      currentClip := clips[clipIndex];
      SetSprite(0);
      return false;
    }

    /** `SetSprite`: an index past the last frame of the current clip is ignored; any other
        is shown. */
    method SetSprite(i: nat)
      requires (currentClip != null ==> currentClip in clips) && 0 <= currentFrameIndex && 0 <= startFrameIndex
      requires |CurrentSprites()| > 0 && i >= |CurrentSprites()| ==> currentFrameIndex < |CurrentSprites()|
      modifies this`currentFrameIndex, this`shownSprite
      ensures Valid()
      ensures i < |CurrentSprites()| ==> currentFrameIndex == i && shownSprite == Some(CurrentSprites()[i])
      ensures i >= |CurrentSprites()| ==>
        currentFrameIndex == old(currentFrameIndex) && shownSprite == old(shownSprite)
    {
      if i >= |CurrentSprites()| {
        return;
      }
      currentFrameIndex := i;
      shownSprite := Some(CurrentSprites()[i]);
    }
  }

  /**
   * A one-shot clip of one frame that allows the next clip, followed by a second clip: after
   * one frame duration the first clip's completion and the animator's fire, the second clip
   * becomes current at its first frame, and yet playback is stopped and the component
   * disabled.
   */
  method NextClipIsSelectedButStopped(frameRate: int) returns (second: bool, frame: int, playing: bool,
                                                            enabled: bool, completions: nat)
    requires frameRate > 0
    ensures second && frame == 0 && !playing && !enabled && completions == 2
  {
    var intro := new StateAnimationClip("Intro", [1], false, true);
    var idle := new StateAnimationClip("Idle", [2, 3], true, false);
    var animator := new MultiStateSpriteAnimator(frameRate, true, false, false, [intro, idle]);
    animator.OnEnable(0);
    animator.Update(animator.frameDuration.s);
    second := animator.currentClip == idle;
    frame := animator.currentFrameIndex;
    playing := animator.isPlaying;
    enabled := animator.enabled;
    completions := |animator.events|;
  }
}
