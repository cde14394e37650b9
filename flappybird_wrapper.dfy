/** The frame stack of `FlappyBirdWrapper`: the observation is the last
    `stack_num` preprocessed screens, oldest first. Screens are an opaque
    frame type; capturing and preprocessing them, and the game's reward and
    game-over flag, come from outside as inputs. */
module FlappyBird {

  /** One `_get_obs` on a stack: drop the oldest frame and append the newest. */
  function Push<F>(stack: seq<F>, frame: F): (r: seq<F>)
    requires |stack| > 0
    ensures |r| == |stack|
    ensures forall i :: 0 <= i < |stack| - 1 ==> r[i] == stack[i + 1]
    ensures r[|stack| - 1] == frame
  {
    stack[1..] + [frame]
  }

  /** The stack after pushing `frames` in arrival order. */
  function PushAll<F>(stack: seq<F>, frames: seq<F>): (r: seq<F>)
    requires |stack| > 0
    ensures |r| == |stack|
    decreases |frames|
  {
    if frames == [] then stack
    else Push(PushAll(stack, frames[..|frames| - 1]), frames[|frames| - 1])
  }

  /** Pushing is a window sliding over the frames: after any number of
      pushes the stack is the last `|stack|` entries of the old stack
      followed by every pushed frame. */
  lemma {:induction false} PushAllWindow<F>(stack: seq<F>, frames: seq<F>)
    requires |stack| > 0
    ensures PushAll(stack, frames) == (stack + frames)[|frames|..]
    decreases |frames|
  {
    if frames != [] {
      var init := frames[..|frames| - 1];
      var f := frames[|frames| - 1];
      PushAllWindow(stack, init);
      var prev := (stack + init)[|init|..];
      assert PushAll(stack, frames) == Push(prev, f);
      assert prev[1..] + [f] == (stack + frames)[|frames|..] by {
        assert frames == init + [f];
        assert stack + frames == (stack + init) + [f];
      }
    }
  }

  /** Once at least `|stack|` frames have arrived, the stack is exactly the
      last `|stack|` of them, in arrival order: nothing of the initial stack
      is left. */
  lemma LastFrames<F>(stack: seq<F>, frames: seq<F>)
    requires 0 < |stack| <= |frames|
    ensures PushAll(stack, frames) == frames[|frames| - |stack|..]
  {
    PushAllWindow(stack, frames);
    assert (stack + frames)[|frames|..] == frames[|frames| - |stack|..];
  }

  /** `stack_num` copies of the empty frame. */
  function EmptyStack<F>(stackNum: nat, emptyFrame: F): (r: seq<F>)
    ensures |r| == stackNum && forall i :: 0 <= i < stackNum ==> r[i] == emptyFrame
  {
    seq(stackNum, _ => emptyFrame)
  }

  class FlappyBirdWrapper<F> {
    const stackNum: nat
    const emptyFrame: F
    /** `self.obs`: the stacked frames, oldest first. */
    var obs: seq<F>
    /** Every frame pushed since construction, oldest first. */
    ghost var frames: seq<F>

    ghost predicate Valid()
      reads this
    {
      stackNum >= 1 && obs == PushAll(EmptyStack(stackNum, emptyFrame), frames)
    }

    /** `__init__`: `stack_num` all-zero frames (`np.stack` of no frames
        fails, so at least one). */
    constructor(stackNum: nat, emptyFrame: F)
      requires stackNum >= 1
      ensures Valid()
      ensures this.stackNum == stackNum && this.emptyFrame == emptyFrame
      ensures obs == EmptyStack(stackNum, emptyFrame) && frames == []
    {
      this.stackNum := stackNum;
      this.emptyFrame := emptyFrame;
      obs := EmptyStack(stackNum, emptyFrame);
      frames := [];
    }

    /** `_get_obs` on the preprocessed current screen. */
    method GetObs(screen: F) returns (o: seq<F>)
      requires Valid()
      modifies this
      ensures Valid()
      ensures obs == Push(old(obs), screen) && o == obs
      ensures frames == old(frames) + [screen]
    {
      obs := obs[1..] + [screen];
      frames := frames + [screen];
      assert frames[..|frames| - 1] == old(frames);
      o := obs;
    }

    /** `step`: the game acts (its reward and game-over flag are inputs),
        then exactly one frame is pushed. */
    method Step(screen: F, reward: real, gameOver: bool) returns (o: seq<F>, r: real, done: bool)
      requires Valid()
      modifies this
      ensures Valid()
      ensures o == obs == Push(old(obs), screen) && frames == old(frames) + [screen]
      ensures r == reward && done == gameOver
    {
      o := GetObs(screen);
      r, done := reward, gameOver;
    }

    /** `reset`: the game restarts but the stack is not cleared; the first
        screen of the new game is pushed onto the previous game's frames. */
    method Reset(screen: F) returns (o: seq<F>)
      requires Valid()
      modifies this
      ensures Valid()
      ensures o == obs == Push(old(obs), screen) && frames == old(frames) + [screen]
    {
      o := GetObs(screen);
    }

    /** The observation is the last `stack_num` frames since construction,
        padded at the front with empty frames while fewer have arrived. */
    lemma ObsIsWindow()
      requires Valid()
      ensures |obs| == stackNum
      ensures |frames| >= stackNum ==> obs == frames[|frames| - stackNum..]
      ensures |frames| < stackNum ==>
                obs == EmptyStack(stackNum - |frames|, emptyFrame) + frames
    {
      PushAllWindow(EmptyStack(stackNum, emptyFrame), frames);
      if |frames| >= stackNum {
        LastFrames(EmptyStack(stackNum, emptyFrame), frames);
      } else {
        assert (EmptyStack(stackNum, emptyFrame) + frames)[|frames|..]
               == EmptyStack(stackNum - |frames|, emptyFrame) + frames;
      }
    }
  }
}
