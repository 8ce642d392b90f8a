/** The event loop of the atlas: the state `main` keeps between frames, the
    effect of each input event on it, the molecule cache built at start-up
    and the tiles each frame draws. */
module Atlas {
  import M = Molecule
  import MB = MoleculeBuffer
  import V = ViewControl
  import G = Grid
  import C = Catalog

  /** The keys the loop reacts to. */
  datatype Key = Escape | Space | Return | LetterR | LetterA | ArrowKey(arrow: G.Arrow) | OtherKey

  datatype Button = LeftButton | RightButton | OtherButton

  /** The input events the loop distinguishes; everything else is
      `OtherEvent`. */
  datatype Event =
    | Quit
    | KeyDown(key: Key)
    | ButtonDown(button: Button, x: int, y: int)
    | ButtonUp(button: Button)
    | Motion(x: int, y: int)
    | WheelEvent(wheelY: int)
    | OtherEvent

  /** The loop's variables: selection, modes, drag state, last mouse
      position, the running flag and one view per compound. */
  datatype State = State(selected: int, wireframe: bool, focused: bool, autoRotate: bool,
                         leftDragging: bool, rightDragging: bool, lastMouseX: int, lastMouseY: int,
                         running: bool, views: seq<V.View>)

  /** What every reachable state satisfies: a valid selection, one view per
      compound, every view inside the control limits. */
  predicate Inv(s: State) {
    0 <= s.selected < G.TileCount && |s.views| == C.CompoundCount
    && forall i :: 0 <= i < |s.views| ==> V.InRange(s.views[i])
  }

  /** The state before the first event. */
  function Initial(): (s: State)
    ensures Inv(s)
    ensures s.selected == 0 && s.running && s.autoRotate && !s.focused && !s.wireframe
    ensures forall i :: 0 <= i < |s.views| ==> s.views[i] == V.Reset()
  {
    State(0, false, false, true, false, false, 0, 0, true, seq(C.CompoundCount, _ => V.Reset()))
  }

  /** A key press: Escape stops, Space and Return toggle the draw mode and
      focus, R resets the selected view, A toggles auto-rotation, and the
      arrows move the selection while the grid is shown. */
  function KeyStep(s: State, k: Key): State
    requires 0 <= s.selected < |s.views|
  {
    match k
    case Escape => s.(running := false)
    case Space => s.(wireframe := !s.wireframe)
    case Return => s.(focused := !s.focused)
    case LetterR => s.(views := s.views[s.selected := V.Reset()])
    case LetterA => s.(autoRotate := !s.autoRotate)
    case ArrowKey(a) => if s.focused then s else s.(selected := G.Navigate(s.selected, a))
    case OtherKey => s
  }

  /** A mouse motion: the last position is updated, a left drag rotates the
      selected view and a right drag pans it (both when both are held). */
  function MotionStep(s: State, x: int, y: int): State
    requires 0 <= s.selected < |s.views|
  {
    var dx, dy := x - s.lastMouseX, y - s.lastMouseY;
    var v := s.views[s.selected];
    var turned := if s.leftDragging then V.Rotate(v, dx, dy) else v;
    var panned := if s.rightDragging then V.Pan(turned, dx, dy) else turned;
    s.(lastMouseX := x, lastMouseY := y, views := s.views[s.selected := panned])
  }

  /** The effect of one event. */
  function Step(s: State, e: Event): State
    requires 0 <= s.selected < |s.views|
  {
    match e
    case Quit => s.(running := false)
    case KeyDown(k) => KeyStep(s, k)
    case ButtonDown(b, x, y) =>
      if b == LeftButton then s.(leftDragging := true, lastMouseX := x, lastMouseY := y)
      else if b == RightButton then s.(rightDragging := true, lastMouseX := x, lastMouseY := y)
      else s
    case ButtonUp(b) =>
      if b == LeftButton then s.(leftDragging := false)
      else if b == RightButton then s.(rightDragging := false)
      else s
    case Motion(x, y) => MotionStep(s, x, y)
    case WheelEvent(wy) => s.(views := s.views[s.selected := V.Wheel(s.views[s.selected], wy)])
    case OtherEvent => s
  }

  /** Every event keeps the invariant. */
  lemma StepKeepsInv(s: State, e: Event)
    requires Inv(s)
    ensures Inv(Step(s, e))
  {
    match e {
      case KeyDown(k) =>
        KeyKeepsInv(s, k);
      case Motion(x, y) =>
        MotionKeepsInv(s, x, y);
      case WheelEvent(wy) =>
        V.RulesKeepRange(s.views[s.selected], 0, 0, wy);
        ViewUpdateKeepsInv(s, V.Wheel(s.views[s.selected], wy));
      case _ =>
    }
  }

  lemma KeyKeepsInv(s: State, k: Key)
    requires Inv(s)
    ensures Inv(KeyStep(s, k))
  {
    match k {
      case ArrowKey(a) =>
        G.NavigateInRange(s.selected, a);
      case LetterR =>
        ViewUpdateKeepsInv(s, V.Reset());
      case _ =>
    }
  }

  lemma MotionKeepsInv(s: State, x: int, y: int)
    requires Inv(s)
    ensures Inv(MotionStep(s, x, y))
  {
    var dx, dy := x - s.lastMouseX, y - s.lastMouseY;
    var v := s.views[s.selected];
    var turned := if s.leftDragging then V.Rotate(v, dx, dy) else v;
    var panned := if s.rightDragging then V.Pan(turned, dx, dy) else turned;
    V.RulesKeepRange(v, dx, dy, 0);
    V.RulesKeepRange(turned, dx, dy, 0);
    ViewUpdateKeepsInv(s, panned);
  }

  /** Replacing the selected view by one in range keeps the invariant. */
  lemma ViewUpdateKeepsInv(s: State, v: V.View)
    requires Inv(s) && V.InRange(v)
    ensures Inv(s.(views := s.views[s.selected := v]))
  {
  }

  /** Events change only the selected compound's view. */
  lemma OnlySelectedViewChanges(s: State, e: Event, i: int)
    requires Inv(s) && 0 <= i < |s.views| && i != s.selected
    ensures |Step(s, e).views| == |s.views| && Step(s, e).views[i] == s.views[i]
  {
    match e {
      case KeyDown(k) =>
        KeyKeepsOtherViews(s, k, i);
      case Motion(x, y) =>
      case WheelEvent(wy) =>
      case _ =>
    }
  }

  lemma KeyKeepsOtherViews(s: State, k: Key, i: int)
    requires 0 <= s.selected < |s.views| && 0 <= i < |s.views| && i != s.selected
    ensures |KeyStep(s, k).views| == |s.views| && KeyStep(s, k).views[i] == s.views[i]
  {
    match k {
      case LetterR =>
      case ArrowKey(a) =>
      case _ =>
    }
  }

  /** While a tile is focused the selection never moves, whatever the event. */
  lemma FocusedSelectionFixed(s: State, e: Event)
    requires Inv(s) && s.focused
    ensures Step(s, e).selected == s.selected
  {
  }

  /** An arrow key moves the selection exactly as the grid rule says when
      the grid is shown, and changes nothing else. */
  lemma ArrowNavigates(s: State, a: G.Arrow)
    requires Inv(s) && !s.focused
    ensures Step(s, KeyDown(ArrowKey(a))) == s.(selected := G.Navigate(s.selected, a))
  {
  }

  /** Quit and Escape stop the loop; no other event does, and no event
      restarts it. */
  lemma RunningStops(s: State, e: Event)
    requires Inv(s)
    ensures !Step(s, e).running <==> (!s.running || e == Quit || e == KeyDown(Escape))
  {
    match e {
      case KeyDown(k) =>
        KeyRunning(s, k);
      case _ =>
    }
  }

  lemma KeyRunning(s: State, k: Key)
    requires 0 <= s.selected < |s.views|
    ensures KeyStep(s, k).running <==> s.running && k != Escape
  {
    match k {
      case Escape =>
      case ArrowKey(a) =>
      case _ =>
    }
  }

  /** The toggles are their own inverses. */
  lemma TogglesInvolutive(s: State, k: Key)
    requires Inv(s) && (k == Space || k == Return || k == LetterA)
    ensures Step(Step(s, KeyDown(k)), KeyDown(k)) == s
  {
  }

  /** R restores the selected view's defaults and nothing else. */
  lemma ResetSelected(s: State)
    requires Inv(s)
    ensures Step(s, KeyDown(LetterR)) == s.(views := s.views[s.selected := V.Reset()])
  {
  }

  /** Without a held button a motion only records the pointer. */
  lemma MotionWithoutDrag(s: State, x: int, y: int)
    requires Inv(s) && !s.leftDragging && !s.rightDragging
    ensures Step(s, Motion(x, y)) == s.(lastMouseX := x, lastMouseY := y)
  {
    assert s.views[s.selected := s.views[s.selected]] == s.views;
  }

  /** Releasing a button after pressing it leaves the drag flags as before
      the press, whatever the earlier flag. */
  lemma PressReleaseDrag(s: State, x: int, y: int)
    requires Inv(s)
    ensures Step(Step(s, ButtonDown(LeftButton, x, y)), ButtonUp(LeftButton)).leftDragging == false
    ensures Step(Step(s, ButtonDown(RightButton, x, y)), ButtonUp(RightButton)).rightDragging == false
    ensures Step(s, ButtonDown(LeftButton, x, y)).rightDragging == s.rightDragging
  {
  }

  /** One tile of a frame: the compound drawn, where, and whether it is
      highlighted. */
  datatype Tile = Tile(compound: int, rect: G.Rect, selected: bool)

  const FocusRect: G.Rect := G.Rect(20, 20, G.WindowWidth - 40, G.WindowHeight - 40)

  /** The tiles of one frame: the whole grid with the selection highlighted,
      or the selected compound alone in the focus rectangle. */
  function FrameTiles(s: State): (t: seq<Tile>)
    ensures |t| == if s.focused then 1 else C.CompoundCount
  {
    if s.focused then [Tile(s.selected, FocusRect, true)]
    else seq(C.CompoundCount, i => Tile(i, G.TileRect(i), i == s.selected))
  }

  /** Grid mode draws each compound once in its own tile with exactly the
      selected one highlighted; focus mode draws the selected compound
      highlighted, inside the window. */
  lemma FrameLayout(s: State)
    requires Inv(s)
    ensures var t := FrameTiles(s);
      (!s.focused ==> forall i :: 0 <= i < |t| ==>
         t[i].compound == i && G.InsideWindow(t[i].rect) && (t[i].selected <==> i == s.selected))
      && (s.focused ==> t[0].compound == s.selected && t[0].selected && G.InsideWindow(t[0].rect))
  {
    if !s.focused {
      forall i | 0 <= i < C.CompoundCount
        ensures G.InsideWindow(G.TileRect(i))
      {
        G.TileInsideWindow(i);
      }
    }
  }

  /** `want` lists what each compound's recipe builds, indexed by preset. */
  ghost predicate RecipeTable(want: seq<M.Geometry>, circle: M.Circle) {
    |want| == C.CompoundCount
    && forall k {:trigger M.ApplyPreset(k, circle)} :: 0 <= k < |want| ==> want[k] == M.ApplyPreset(k, circle)
  }

  /** `mol` is a valid buffer holding `g`. */
  ghost predicate Holds(mol: MB.MoleculeGeometry, g: M.Geometry)
    reads mol, mol.atomPos, mol.atomLabel, mol.bonds
  {
    mol.Valid() && mol.Contents() == g
  }

  /** One entry of `moleculeCache`: preset `k` built into a fresh buffer. */
  method BuildOne(k: int, circle: M.Circle, ghost want: seq<M.Geometry>) returns (mol: MB.MoleculeGeometry)
    requires RecipeTable(want, circle) && 0 <= k < |want|
    ensures fresh(mol) && fresh(mol.atomPos) && fresh(mol.atomLabel) && fresh(mol.bonds)
    ensures Holds(mol, want[k])
  {
    mol := new MB.MoleculeGeometry();
    mol.ApplyPreset(k, circle);
  }

  /** `moleculeCache`: one geometry per compound, preset `i` built by its
      recipe, entry by entry. */
  method BuildCache(circle: M.Circle, ghost want: seq<M.Geometry>) returns (cache: seq<MB.MoleculeGeometry>)
    requires RecipeTable(want, circle)
    ensures |cache| == C.CompoundCount
    ensures forall i :: 0 <= i < |cache| ==> Holds(cache[i], want[i])
  {
    cache := [];
    for i := 0 to C.CompoundCount
      invariant |cache| == i
      invariant forall k :: 0 <= k < i ==> Holds(cache[k], want[k])
    {
      var mol := BuildOne(i, circle, want);
      cache := cache + [mol];
    }
  }

  /** The loop's state in place, with the molecule cache built once. */
  class AtlasLoop {
    const cache: seq<MB.MoleculeGeometry>
    const views: array<V.View>
    var selected: int
    var wireframe: bool
    var focused: bool
    var autoRotate: bool
    var leftDragging: bool
    var rightDragging: bool
    var lastMouseX: int
    var lastMouseY: int
    var running: bool

    ghost predicate Valid()
      reads this
    {
      views.Length == C.CompoundCount && 0 <= selected < views.Length
    }

    ghost function Snapshot(): State
      reads this, views
    {
      State(selected, wireframe, focused, autoRotate, leftDragging, rightDragging, lastMouseX, lastMouseY,
            running, views[..])
    }

    /** Start-up around a molecule cache already built (`BuildCache`):
        every view reset, the loop's variables at their initial values. */
    constructor (built: seq<MB.MoleculeGeometry>)
      ensures Valid() && Snapshot() == Initial()
      ensures cache == built
    {
      cache := built;
      var vs := new V.View[C.CompoundCount](_ => V.Reset());
      views := vs;
      selected := 0;
      wireframe := false;
      focused := false;
      autoRotate := true;
      leftDragging := false;
      rightDragging := false;
      lastMouseX := 0;
      lastMouseY := 0;
      running := true;
      new;
      assert views[..] == Initial().views;
    }

    /** One pass of the event-polling loop's body. */
    method HandleEvent(e: Event)
      requires Valid()
      modifies this, views
      ensures Valid() && Snapshot() == Step(old(Snapshot()), e)
    {
      match e {
        case Quit =>
          running := false;
        case KeyDown(k) =>
          HandleKey(k);
        case ButtonDown(b, x, y) =>
          if b == LeftButton {
            leftDragging := true;
            lastMouseX, lastMouseY := x, y;
          }
          if b == RightButton {
            rightDragging := true;
            lastMouseX, lastMouseY := x, y;
          }
        case ButtonUp(b) =>
          if b == LeftButton {
            leftDragging := false;
          }
          if b == RightButton {
            rightDragging := false;
          }
        case Motion(x, y) =>
          HandleMotion(x, y);
        case WheelEvent(wy) =>
          views[selected] := V.Wheel(views[selected], wy);
        case OtherEvent =>
      }
    }

    method HandleKey(k: Key)
      requires Valid()
      modifies this, views
      ensures Valid() && Snapshot() == KeyStep(old(Snapshot()), k)
    {
      if k == Escape {
        running := false;
      }
      if k == Space {
        wireframe := !wireframe;
      }
      if k == Return {
        focused := !focused;
      }
      if k == LetterR {
        views[selected] := V.Reset();
      }
      if k == LetterA {
        autoRotate := !autoRotate;
      }
      if !focused && k.ArrowKey? {
        selected := G.Navigate(selected, k.arrow);
        G.NavigateInRange(old(selected), k.arrow);
      }
    }

    method HandleMotion(x: int, y: int)
      requires Valid()
      modifies this, views
      ensures Valid() && Snapshot() == MotionStep(old(Snapshot()), x, y)
    {
      var dx, dy := x - lastMouseX, y - lastMouseY;
      lastMouseX, lastMouseY := x, y;
      if leftDragging {
        views[selected] := V.Rotate(views[selected], dx, dy);
      }
      if rightDragging {
        views[selected] := V.Pan(views[selected], dx, dy);
      }
    }

    /** The tiles the frame loop hands to `draw_molecule`, in drawing order. */
    method LayoutFrame() returns (tiles: seq<Tile>)
      requires Valid()
      ensures tiles == FrameTiles(Snapshot())
    {
      if focused {
        tiles := [Tile(selected, FocusRect, true)];
      } else {
        tiles := [];
        for i := 0 to C.CompoundCount
          invariant tiles == FrameTiles(Snapshot())[..i]
        {
          tiles := tiles + [Tile(i, G.TileRect(i), i == selected)];
        }
      }
    }
  }
}
