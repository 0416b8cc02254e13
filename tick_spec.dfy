/** The effect of one render-frame tick of the bounded orbit controls, on
    values, and what a run of frames does to it. */
module TickSpec {
  import opened Room

  datatype Option<T> = None | Some(value: T)

  /** What the tick can see and change when both the camera and the controls
      are present: the camera position, the controls' target (if it has one)
      and how many times `update()` has been called on the controls. */
  datatype Frame = Frame(camera: Point, target: Option<Point>, updates: nat)

  predicate Settled(f: Frame, b: Box)
  {
    InBox(f.camera, b) && (f.target.Some? ==> InBox(f.target.value, b))
  }

  /** One tick: clamp the camera, clamp the target if present, and call
      `update()` once when, and only when, a camera coordinate was corrected. */
  function Tick(f: Frame, b: Box): (r: Frame)
    ensures WellFormed(b) ==> Settled(r, b)
    ensures r.target.Some? <==> f.target.Some?
    ensures WellFormed(b) ==> r.updates == f.updates + (if InBox(f.camera, b) then 0 else 1)
    ensures Settled(f, b) ==> r == f
  {
    var cam := ClampPoint(f.camera, b);
    var target := match f.target
      case None => None
      case Some(t) => Some(ClampPoint(t, b).value);
    Frame(cam.value, target, if cam.corrected then f.updates + 1 else f.updates)
  }

  /** A correction of the target alone never causes an `update()` call: the
      count after a tick does not depend on the target at all. */
  lemma TargetNeverTriggersUpdate(f: Frame, t: Option<Point>, b: Box)
    ensures Tick(f.(target := t), b).updates == Tick(f, b).updates
    ensures Tick(f.(target := t), b).camera == Tick(f, b).camera
  {
  }

  /** A second tick straight after the first changes nothing and makes no
      further `update()` call. */
  lemma TickIdempotent(f: Frame, b: Box)
    requires WellFormed(b)
    ensures Tick(Tick(f, b), b) == Tick(f, b)
  {
  }

  /** What the orbit controls leave behind between two ticks: user dragging,
      zooming and panning moves the camera and the target anywhere. */
  datatype Move = Move(camera: Point, target: Option<Point>)

  /** A frame: the controls move the camera and target, then the tick runs. */
  function Step(f: Frame, m: Move, b: Box): Frame
  {
    Tick(Frame(m.camera, m.target, f.updates), b)
  }

  /** The frames of a session, one move per frame, in order. */
  function Run(f: Frame, moves: seq<Move>, b: Box): Frame
    decreases |moves|
  {
    if moves == [] then f else Run(Step(f, moves[0], b), moves[1..], b)
  }

  /** How many of the moves leave the camera outside the box. */
  function Escapes(moves: seq<Move>, b: Box): (n: nat)
    ensures n <= |moves|
    decreases |moves|
  {
    if moves == [] then 0
    else (if InBox(moves[0].camera, b) then 0 else 1) + Escapes(moves[1..], b)
  }

  /** However the controls move things in between, after any number of frames
      (at least one) the camera and the target are inside the room. */
  lemma {:induction false} RunSettles(f: Frame, moves: seq<Move>, b: Box)
    requires WellFormed(b)
    requires |moves| > 0
    ensures Settled(Run(f, moves, b), b)
    decreases |moves|
  {
    if |moves| > 1 {
      RunSettles(Step(f, moves[0], b), moves[1..], b);
    }
  }

  /** `update()` is called exactly once for every frame in which the controls
      had taken the camera out of the room, and never otherwise. */
  lemma {:induction false} RunUpdateCount(f: Frame, moves: seq<Move>, b: Box)
    requires WellFormed(b)
    ensures Run(f, moves, b).updates == f.updates + Escapes(moves, b)
    decreases |moves|
  {
    if moves != [] {
      RunUpdateCount(Step(f, moves[0], b), moves[1..], b);
    }
  }

  /** If the controls leave everything in place after a frame, the following
      frames are the same settled frame and make no `update()` call. */
  lemma {:induction false} StillRunIsStable(f: Frame, n: nat, b: Box)
    requires WellFormed(b)
    requires Settled(f, b)
    ensures Run(f, seq(n, _ => Move(f.camera, f.target)), b) == f
    decreases n
  {
    if n > 0 {
      var moves := seq(n, _ => Move(f.camera, f.target));
      assert moves[1..] == seq(n - 1, _ => Move(f.camera, f.target));
      StillRunIsStable(f, n - 1, b);
    }
  }
}
