/**
 * The per-frame state machine of the main loop: polling input into the request record,
 * consuming the close, hot-reload and text-toggle requests, moving the camera for the held
 * movement keys and turning it by the mouse motion with the pitch clamped.
 *
 * `App` holds the variables the loop updates in place; `LoopState` is their value, and the pure
 * functions below say what each step of an iteration does to it.
 */
module Frame {
  import opened Linear
  import opened Events

  /** camera_data */
  datatype Camera = Camera(pos: Vec3, front: Vec3, up: Vec3, yaw: real, pitch: real)

  /** The camera before the first frame: at z = 10 looking down -z, yaw -90, pitch 0. */
  const InitialCamera: Camera :=
    Camera(Vec3(0.0, 0.0, 10.0), Vec3(0.0, 0.0, -1.0), Vec3(0.0, 1.0, 0.0), -90.0, 0.0)

  /** The loop's variables as one value. Programs are GL ids, zero meaning "no program". */
  datatype LoopState = LoopState(evs: EventsData, running: bool, drawText: bool,
                         textProgram: int, sceneProgram: int, cam: Camera)

  // ---------------------------------------------------------------- requests

  /**
   * Consuming the requests of one frame; `newText` and `newScene` are what compiling the two
   * shader programs again returned (0 on failure), used only when a hot reload is pending.
   * The flag says the loop breaks out before drawing.
   */
  function Consume(s: LoopState, newText: int, newScene: int): (r: (LoopState, bool))
    ensures r.1 == (Close in s.evs.requests)
  {
    var q := s.evs.requests;
    if Close in q then (s.(running := false), true)
    else
      var s := if HotReload in q then Reload(s, newText, newScene) else s;
      var s := if ModeText in q then ToggleText(s) else s;
      (s, false)
  }

  /** The hot-reload branch: the new programs are taken only if both compiled. */
  function Reload(s: LoopState, newText: int, newScene: int): LoopState {
    var s := if newText != 0 && newScene != 0 then s.(textProgram := newText, sceneProgram := newScene) else s;
    s.(evs := s.evs.(requests := s.evs.requests - {HotReload}))
  }

  function ToggleText(s: LoopState): LoopState {
    s.(drawText := !s.drawText, evs := s.evs.(requests := s.evs.requests - {ModeText}))
  }

  /** A pending close stops the loop before anything else is consumed. */
  lemma CloseStopsFrame(s: LoopState, newText: int, newScene: int)
    ensures var r := Consume(s, newText, newScene);
      if Close in s.evs.requests then r.1 && r.0 == s.(running := false)
      else !r.1 && r.0.running == s.running
  {
  }

  /**
   * A hot reload replaces both programs when both new ones compiled and neither otherwise, and
   * is consumed either way.
   */
  lemma ReloadSwapsBothOrNeither(s: LoopState, newText: int, newScene: int)
    requires Close !in s.evs.requests
    ensures var r := Consume(s, newText, newScene).0;
      HotReload !in r.evs.requests &&
      if HotReload in s.evs.requests && newText != 0 && newScene != 0
      then r.textProgram == newText && r.sceneProgram == newScene
      else r.textProgram == s.textProgram && r.sceneProgram == s.sceneProgram
  {
  }

  /** Valid (nonzero) programs stay valid whatever the compiler returns. */
  lemma ProgramsStayValid(s: LoopState, newText: int, newScene: int)
    requires s.textProgram != 0 && s.sceneProgram != 0
    ensures var r := Consume(s, newText, newScene).0; r.textProgram != 0 && r.sceneProgram != 0
  {
  }

  /** The text toggle flips draw_text exactly once per request and is consumed. */
  lemma TextToggledOnce(s: LoopState, newText: int, newScene: int)
    requires Close !in s.evs.requests
    ensures var r := Consume(s, newText, newScene).0;
      ModeText !in r.evs.requests && r.drawText == (s.drawText != (ModeText in s.evs.requests))
  {
  }

  /**
   * Apart from the two consumed requests the record, the camera and the running flag are as
   * they were: movement requests stay pending for a held key, and a mode change is never
   * consumed.
   */
  lemma ConsumeKeepsTheRest(s: LoopState, newText: int, newScene: int)
    requires Close !in s.evs.requests
    ensures var r := Consume(s, newText, newScene).0;
      r.evs == s.evs.(requests := s.evs.requests - {HotReload, ModeText}) &&
      r.cam == s.cam && r.running == s.running
  {
  }

  // ---------------------------------------------------------------- camera

  /** The forward step: the view direction scaled by the camera speed. */
  function Forward(c: Camera, speed: real): Vec3 {
    Scale3(c.front, speed)
  }

  /** The strafe step: the normalised side vector scaled by the camera speed. */
  function Side(c: Camera, speed: real, libm: Libm): Vec3 {
    Scale3(NormalizeTo(Cross(c.front, c.up), libm), speed)
  }

  /** The camera after the four movement tests, in the source's order. */
  function Moved(c: Camera, q: set<Request>, speed: real, libm: Libm): Camera {
    var p := c.pos;
    var p := if Up in q then Add3(p, Forward(c, speed)) else p;
    var p := if Down in q then Sub3(p, Forward(c, speed)) else p;
    var p := if Left in q then Add3(p, Side(c, speed, libm)) else p;
    var p := if Right in q then Sub3(p, Side(c, speed, libm)) else p;
    c.(pos := p)
  }

  /** +1, -1 or 0: the net direction of a pair of opposite keys. */
  function Net(plus: bool, minus: bool): real {
    (if plus then 1.0 else 0.0) - (if minus then 1.0 else 0.0)
  }

  /** Adding v for one key and subtracting it for the opposite key moves by Net times v. */
  lemma OppositeSteps(p: Vec3, v: Vec3, plus: bool, minus: bool)
    ensures var p1 := if plus then Add3(p, v) else p;
      (if minus then Sub3(p1, v) else p1) == Add3(p, Scale3(v, Net(plus, minus)))
  {
  }

  /** Only the position moves, by the sum of the steps of the held keys. */
  lemma {:induction false} MovedDisplacement(c: Camera, q: set<Request>, speed: real, libm: Libm)
    ensures Moved(c, q, speed, libm) ==
      c.(pos := Add3(Add3(c.pos, Scale3(Forward(c, speed), Net(Up in q, Down in q))),
                     Scale3(Side(c, speed, libm), Net(Left in q, Right in q))))
  {
    OppositeSteps(c.pos, Forward(c, speed), Up in q, Down in q);
    var p2 := Add3(c.pos, Scale3(Forward(c, speed), Net(Up in q, Down in q)));
    OppositeSteps(p2, Side(c, speed, libm), Left in q, Right in q);
  }

  /** Holding two opposite keys leaves the camera where it was. */
  lemma OppositeKeysCancel(c: Camera, speed: real, libm: Libm)
    ensures Moved(c, {Up, Down}, speed, libm) == c
    ensures Moved(c, {Left, Right}, speed, libm) == c
    ensures Moved(c, {Up, Down, Left, Right}, speed, libm) == c
  {
  }

  /** Strafing moves orthogonally to both the view direction and the up vector. */
  lemma StrafeIsSideways(c: Camera, speed: real, libm: Libm)
    ensures Dot(Side(c, speed, libm), c.front) == 0.0 && Dot(Side(c, speed, libm), c.up) == 0.0
  {
    var n := NormalizeTo(Cross(c.front, c.up), libm);
    CrossOrthogonal(c.front, c.up);
    NormalizeKeepsOrthogonal(Cross(c.front, c.up), c.front, libm);
    NormalizeKeepsOrthogonal(Cross(c.front, c.up), c.up, libm);
    DotScaleLeft(n, c.front, speed);
    DotScaleLeft(n, c.up, speed);
  }

  /** The mouse sensitivity. */
  const Sensitivity: real := 0.1

  /** The pitch limits, in degrees. */
  const MaxPitch: real := 89.0

  /** The clamp on the pitch: values beyond either limit are pulled back to it. */
  function ClampPitch(p: real): (r: real)
    ensures -MaxPitch <= r <= MaxPitch
    ensures -MaxPitch <= p <= MaxPitch ==> r == p
    ensures p > MaxPitch ==> r == MaxPitch
    ensures p < -MaxPitch ==> r == -MaxPitch
  {
    var p := if p > MaxPitch then MaxPitch else p;
    if p < -MaxPitch then -MaxPitch else p
  }

  /** Clamping twice is clamping once. */
  lemma ClampIdempotent(p: real)
    ensures ClampPitch(ClampPitch(p)) == ClampPitch(p)
  {
  }

  /** The view direction for a yaw and a pitch in degrees. */
  function FrontOf(yaw: real, pitch: real, libm: Libm): Vec3 {
    var y := ToRadians(yaw);
    var p := ToRadians(pitch);
    Vec3(libm.cosf(y) * libm.cosf(p), libm.sinf(p), libm.sinf(y) * libm.cosf(p))
  }

  /** The camera after turning by the frame's mouse motion. */
  function Looked(c: Camera, xrel: int, yrel: int, libm: Libm): Camera {
    var yaw := c.yaw - Sensitivity * xrel as real;
    var pitch := ClampPitch(c.pitch - Sensitivity * yrel as real);
    c.(yaw := yaw, pitch := pitch, front := FrontOf(yaw, pitch, libm))
  }

  /** sinf and cosf satisfy sin² + cos² = 1 at angle a. */
  predicate PythagoreanAt(libm: Libm, a: real) {
    libm.sinf(a) * libm.sinf(a) + libm.cosf(a) * libm.cosf(a) == 1.0
  }

  /** With a trigonometry that satisfies sin² + cos² = 1, the view direction is a unit vector. */
  lemma {:induction false} FrontIsUnit(yaw: real, pitch: real, libm: Libm)
    requires PythagoreanAt(libm, ToRadians(yaw)) && PythagoreanAt(libm, ToRadians(pitch))
    ensures Norm2(FrontOf(yaw, pitch, libm)) == 1.0
  {
    var cy, sy := libm.cosf(ToRadians(yaw)), libm.sinf(ToRadians(yaw));
    var cp, sp := libm.cosf(ToRadians(pitch)), libm.sinf(ToRadians(pitch));
    assert (cy * cp) * (cy * cp) + (sy * cp) * (sy * cp) == (cy * cy + sy * sy) * (cp * cp);
  }

  // ---------------------------------------------------------------- the loop's variables

  class App {
    var evs: EventsData
    var running: bool
    var drawText: bool
    var textProgram: int
    var sceneProgram: int
    var cam: Camera

    function State(): LoopState
      reads this
    {
      LoopState(evs, running, drawText, textProgram, sceneProgram, cam)
    }

    /** The state before the first frame, with the two programs built at start-up. */
    constructor (textProgram0: int, sceneProgram0: int)
      ensures State() == LoopState(EventsData(0, 0, {}), true, true, textProgram0, sceneProgram0, InitialCamera)
    {
      evs := EventsData(0, 0, {});
      running := true;
      drawText := true;
      textProgram := textProgram0;
      sceneProgram := sceneProgram0;
      cam := InitialCamera;
    }

    /**
     * The poll loop: the deltas are zeroed, then every queued event is folded in. Requests
     * carry over from the previous frame; the deltas are those of the last motion event.
     */
    method Poll(queue: seq<Event>)
      modifies this
      ensures State() == old(State()).(evs := Fold(old(evs).(xrel := 0, yrel := 0), queue))
      ensures (evs.xrel, evs.yrel) == LastMotion((0, 0), queue)
    {
      evs := evs.(xrel := 0, yrel := 0);
      ghost var start := evs;
      var i := 0;
      while i < |queue|
        invariant 0 <= i <= |queue|
        invariant Fold(evs, queue[i..]) == Fold(start, queue)
        invariant State() == old(State()).(evs := evs)
      {
        assert queue[i..][1..] == queue[i + 1..];
        evs := HandleEvents(queue[i], evs);
        i := i + 1;
      }
      assert queue[i..] == [];
      FoldKeepsLastMotion(start, queue);
    }

    /** The request tests of one frame; `stop` is the loop's break. */
    method ConsumeRequests(newText: int, newScene: int) returns (stop: bool)
      modifies this
      ensures (State(), stop) == Consume(old(State()), newText, newScene)
    {
      if Close in evs.requests {
        running := false;
        return true;
      }
      if HotReload in evs.requests {
        if newText != 0 && newScene != 0 {
          textProgram := newText;
          sceneProgram := newScene;
        }
        evs := evs.(requests := evs.requests - {HotReload});
      }
      if ModeText in evs.requests {
        drawText := !drawText;
        evs := evs.(requests := evs.requests - {ModeText});
      }
      return false;
    }

    /** Camera controlling: one step of 0.01 * dt per held movement key. */
    method MoveCamera(dt: real, libm: Libm)
      modifies this
      ensures State() == old(State()).(cam := Moved(old(cam), old(evs.requests), 0.01 * dt, libm))
    {
      var speed := 0.01 * dt;
      if Up in evs.requests {
        cam := cam.(pos := Add3(cam.pos, Scale3(cam.front, speed)));
      }
      if Down in evs.requests {
        cam := cam.(pos := Sub3(cam.pos, Scale3(cam.front, speed)));
      }
      if Left in evs.requests {
        var side := Scale3(NormalizeTo(Cross(cam.front, cam.up), libm), speed);
        cam := cam.(pos := Add3(cam.pos, side));
      }
      if Right in evs.requests {
        var side := Scale3(NormalizeTo(Cross(cam.front, cam.up), libm), speed);
        cam := cam.(pos := Sub3(cam.pos, side));
      }
    }

    /** Turning by the mouse motion; the pitch ends up within [-89, 89] degrees. */
    method Look(libm: Libm)
      modifies this
      ensures State() == old(State()).(cam := Looked(old(cam), old(evs.xrel), old(evs.yrel), libm))
      ensures -MaxPitch <= cam.pitch <= MaxPitch
    {
      var xrel := Sensitivity * evs.xrel as real;
      var yrel := Sensitivity * evs.yrel as real;
      cam := cam.(yaw := cam.yaw - xrel, pitch := cam.pitch - yrel);
      if cam.pitch > MaxPitch {
        cam := cam.(pitch := MaxPitch);
      }
      if cam.pitch < -MaxPitch {
        cam := cam.(pitch := -MaxPitch);
      }
      cam := cam.(front := FrontOf(cam.yaw, cam.pitch, libm));
    }

    /**
     * One iteration up to the drawing: poll, consume the requests (stopping on a close), move
     * and turn the camera.
     */
    method Step(queue: seq<Event>, newText: int, newScene: int, dt: real, libm: Libm) returns (stop: bool)
      modifies this
      ensures var polled := old(State()).(evs := Fold(old(evs).(xrel := 0, yrel := 0), queue));
        var (s, brk) := Consume(polled, newText, newScene);
        stop == brk &&
        State() == if brk then s
                   else s.(cam := Looked(Moved(s.cam, s.evs.requests, 0.01 * dt, libm), s.evs.xrel, s.evs.yrel, libm))
    {
      Poll(queue);
      stop := ConsumeRequests(newText, newScene);
      if stop {
        return;
      }
      MoveCamera(dt, libm);
      Look(libm);
    }
  }
}
