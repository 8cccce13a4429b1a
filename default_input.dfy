/**
 * The input handling of src/samples/default.h: the L key toggles the
 * cursor once per press (edge-detected through `keyLWasPressed`), and the
 * mouse turns the camera only while the cursor is captured. ImGui's
 * `WantCaptureKeyboard` / `WantCaptureMouse` are inputs; the camera itself
 * is outside this model, so the callbacks return what they hand to it.
 */
module DefaultInput {
  import opened Wrappers

  /** `SCR_WIDTH`, `SCR_HEIGHT`. */
  const ScreenWidth: real := 1280.0
  const ScreenHeight: real := 720.0

  /** The two flags of the L toggle. */
  datatype Toggle = Toggle(cursorEnabled: bool, keyLWasPressed: bool)

  /** One frame of `processInput` on the toggle: a press seen with the key up before flips the cursor. */
  function Step(t: Toggle, wantKeyboard: bool, lPressed: bool): Toggle {
    if wantKeyboard then t
    else if lPressed then
      (if !t.keyLWasPressed then Toggle(!t.cursorEnabled, true) else t)
    else t.(keyLWasPressed := false)
  }

  /** A frame: whether ImGui wants the keyboard and whether L is down. */
  datatype Frame = Frame(wantKeyboard: bool, lPressed: bool)

  /** The toggle after a run of frames. */
  function Run(t: Toggle, frames: seq<Frame>): Toggle
    decreases |frames|
  {
    if |frames| == 0 then t
    else Run(Step(t, frames[0].wantKeyboard, frames[0].lPressed), frames[1..])
  }

  /** The number of presses in the frames: frames ImGui leaves to the game where L is down and was up at the last such frame. */
  function Presses(wasDown: bool, frames: seq<Frame>): nat
    decreases |frames|
  {
    if |frames| == 0 then 0
    else if frames[0].wantKeyboard then Presses(wasDown, frames[1..])
    else if frames[0].lPressed then (if wasDown then 0 else 1) + Presses(true, frames[1..])
    else Presses(false, frames[1..])
  }

  /** One toggle per press: the cursor flag flips exactly as often as L is newly pressed. */
  lemma {:induction false} OneTogglePerPress(t: Toggle, frames: seq<Frame>)
    ensures Run(t, frames).cursorEnabled == (if Presses(t.keyLWasPressed, frames) % 2 == 0 then t.cursorEnabled else !t.cursorEnabled)
    decreases |frames|
  {
    if |frames| > 0 {
      var f := frames[0];
      OneTogglePerPress(Step(t, f.wantKeyboard, f.lPressed), frames[1..]);
    }
  }

  /** Holding L down changes nothing once the press has been seen. */
  lemma {:induction false} HoldingL(t: Toggle, n: nat)
    requires t.keyLWasPressed
    ensures Run(t, seq(n, _ => Frame(false, true))) == t
    decreases n
  {
    if n > 0 {
      var frames := seq(n, _ => Frame(false, true));
      assert frames[1..] == seq(n - 1, _ => Frame(false, true));
      HoldingL(t, n - 1);
    }
  }

  /** The globals `cursorEnabled`, `keyLWasPressed`, `lastX`, `lastY` and `firstMouse`. */
  class Input {
    var cursorEnabled: bool
    var keyLWasPressed: bool
    var lastX: real
    var lastY: real
    var firstMouse: bool

    constructor ()
      ensures !cursorEnabled && !keyLWasPressed && firstMouse
      ensures lastX == ScreenWidth / 2.0 && lastY == ScreenHeight / 2.0
    {
      cursorEnabled, keyLWasPressed := false, false;
      lastX, lastY := ScreenWidth / 2.0, ScreenHeight / 2.0;
      firstMouse := true;
    }

    /**
     * `processInput`'s L key: returns the cursor mode set through
     * `glfwSetInputMode` (true for `GLFW_CURSOR_NORMAL`) when it toggles.
     */
    method ProcessInput(wantKeyboard: bool, lPressed: bool) returns (cursorMode: Option<bool>)
      modifies this
      ensures Toggle(cursorEnabled, keyLWasPressed) == Step(old(Toggle(cursorEnabled, keyLWasPressed)), wantKeyboard, lPressed)
      ensures cursorMode == (if cursorEnabled != old(cursorEnabled) then Some(cursorEnabled) else None)
      ensures lastX == old(lastX) && lastY == old(lastY) && firstMouse == old(firstMouse)
    {
      cursorMode := None;
      if wantKeyboard {
        return;
      }
      if lPressed {
        if !keyLWasPressed {
          cursorEnabled := !cursorEnabled;
          cursorMode := Some(cursorEnabled);
          keyLWasPressed := true;
        }
      } else {
        keyLWasPressed := false;
      }
    }

    /**
     * `mouse_callback`: ignored while ImGui wants the mouse or the cursor is
     * free; otherwise the offsets since the last event (none on the first
     * event), with y inverted, are handed to the camera.
     */
    method MouseCallback(wantMouse: bool, xpos: real, ypos: real) returns (offset: Option<(real, real)>)
      modifies this
      ensures wantMouse || old(cursorEnabled) ==> offset == None && lastX == old(lastX) && lastY == old(lastY) && firstMouse == old(firstMouse)
      ensures !wantMouse && !old(cursorEnabled) ==>
        !firstMouse && lastX == xpos && lastY == ypos
        && offset == Some(if old(firstMouse) then (0.0, 0.0) else (xpos - old(lastX), old(lastY) - ypos))
      ensures cursorEnabled == old(cursorEnabled) && keyLWasPressed == old(keyLWasPressed)
    {
      if wantMouse || cursorEnabled {
        return None;
      }
      if firstMouse {
        lastX := xpos;
        lastY := ypos;
        firstMouse := false;
      }
      var xoffset := xpos - lastX;
      var yoffset := lastY - ypos;
      lastX := xpos;
      lastY := ypos;
      offset := Some((xoffset, yoffset));
    }
  }
}
