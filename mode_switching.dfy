/** The drawing-mode switcher (`DrawingModeSwitcher`): it activates either the
    3D (world line) manager or the 2D (screen) manager and deactivates the other. */
module ModeSwitching {

  /** A scene object; only its active flag (`SetActive`) is modelled. */
  class GameObject {
    var active: bool

    constructor (active: bool)
      ensures this.active == active
    {
      this.active := active;
    }

    /** `SetActive` */
    method SetActive(value: bool)
      modifies this
      ensures active == value
    {
      active := value;
    }
  }

  /** Which of the two managers a mode shows. */
  datatype DrawingMode = ThreeD | TwoD

  /** The active flags of the 3D and the 2D manager in a mode: exactly one of them is set. */
  function ActiveFlags(mode: DrawingMode): (flags: (bool, bool))
    ensures flags.0 != flags.1
    ensures flags.0 <==> mode == ThreeD
  {
    match mode
    case ThreeD => (true, false)
    case TwoD => (false, true)
  }

  class DrawingModeSwitcher {
    const arDrawLineManager: GameObject
    const screenDrawingManager: GameObject

    /** Both managers show the flags of `mode`. */
    ghost predicate InMode(mode: DrawingMode)
      reads arDrawLineManager, screenDrawingManager
    {
      (arDrawLineManager.active, screenDrawingManager.active) == ActiveFlags(mode)
    }

    constructor (arDrawLineManager: GameObject, screenDrawingManager: GameObject)
      ensures this.arDrawLineManager == arDrawLineManager && this.screenDrawingManager == screenDrawingManager
    {
      this.arDrawLineManager := arDrawLineManager;
      this.screenDrawingManager := screenDrawingManager;
    }

    /** `Start`: begin in 3D mode. */
    method Start()
      modifies arDrawLineManager, screenDrawingManager
      ensures !screenDrawingManager.active
      ensures arDrawLineManager != screenDrawingManager ==> InMode(ThreeD)
    {
      Set3DDrawingMode();
    }

    /** `Set3DDrawingMode`: the screen manager ends inactive whatever the
        previous state; the 3D manager ends active unless it is the same object
        (which is deactivated last). */
    method Set3DDrawingMode()
      modifies arDrawLineManager, screenDrawingManager
      ensures !screenDrawingManager.active
      ensures arDrawLineManager != screenDrawingManager ==> InMode(ThreeD)
    {
      arDrawLineManager.SetActive(true);
      screenDrawingManager.SetActive(false);
    }

    /** `Set2DDrawingMode`: the mirror image of `Set3DDrawingMode`. */
    method Set2DDrawingMode()
      modifies arDrawLineManager, screenDrawingManager
      ensures screenDrawingManager.active
      ensures arDrawLineManager != screenDrawingManager ==> InMode(TwoD)
    {
      arDrawLineManager.SetActive(false);
      screenDrawingManager.SetActive(true);
    }
  }
}
