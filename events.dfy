/**
 * handle_events: folding SDL input events into the per-frame request record.
 *
 * `requests` is a u32 bit mask with one EVENT_* flag per bit: key presses set flags, releasing a
 * movement key clears its flag, and the frame loop consumes the rest. Every flag is a distinct
 * single bit (FlagsAreDistinctBits) and the mask starts at zero, so the mask is modelled as the
 * set of the flags whose bits are set: `|= FLAG` adds the flag, `&= ~FLAG` removes it.
 */
module Events {
  /** The EVENT_* requests. */
  datatype Request = Close | HotReload | Up | Down | Left | Right | ModeChange | ModeText

  /** The bit of each request in the u32 mask. */
  function Flag(q: Request): (f: bv32)
    ensures f != 0
  {
    match q
    case Close => 1 << 0
    case HotReload => 1 << 1
    case Up => 1 << 2
    case Down => 1 << 3
    case Left => 1 << 4
    case Right => 1 << 5
    case ModeChange => 1 << 6
    case ModeText => 1 << 7
  }

  /** The four requests a key release can withdraw. */
  const Movement: set<Request> := {Up, Down, Left, Right}

  /** SDL keycodes: the key's character code. */
  const KeyW: int := 119
  const KeyS: int := 115
  const KeyA: int := 97
  const KeyD: int := 100
  const KeyR: int := 114
  const KeyF: int := 102
  const KeySpace: int := 32
  const KeyEscape: int := 27

  /** SDL_RELEASED */
  const Released: int := 0

  /** The SDL events handle_events distinguishes; every other type is `Other`. */
  datatype Event =
    | Quit
    | MouseMotion(xrel: int, yrel: int)
    | WindowEvent(kind: int, data1: int, data2: int)
    | KeyUp(sym: int, state: int)
    | KeyDown(sym: int, repeat: int)
    | Other(kind: int)

  /** events_data: the mouse motion of the frame and the pending requests. */
  datatype EventsData = EventsData(xrel: int, yrel: int, requests: set<Request>)

  /**
   * handle_events(event, previous): a copy of the previous record with the event applied.
   * A window event only resizes the GL viewport, which is not part of this model.
   */
  function HandleEvents(e: Event, prev: EventsData): EventsData {
    match e
    case Quit => prev.(requests := prev.requests + {Close})
    case MouseMotion(x, y) => prev.(xrel := x, yrel := y)
    case WindowEvent(_, _, _) => prev
    case KeyUp(sym, state) =>
      if state == Released then prev.(requests := KeyReleased(prev.requests, sym)) else prev
    case KeyDown(sym, repeat) =>
      if repeat == 0 then prev.(requests := KeyPressed(prev.requests, sym)) else prev
    case Other(_) => prev
  }

  /** The key-up branch: one test per movement key, in the source's order. */
  function KeyReleased(requests: set<Request>, sym: int): set<Request> {
    var r := if sym == KeyW then requests - {Up} else requests;
    var r := if sym == KeyS then r - {Down} else r;
    var r := if sym == KeyA then r - {Left} else r;
    if sym == KeyD then r - {Right} else r
  }

  /** The key-down branch: one test per bound key, in the source's order. */
  function KeyPressed(requests: set<Request>, sym: int): set<Request> {
    var r := if sym == KeyR then requests + {HotReload} else requests;
    var r := if sym == KeySpace then r + {ModeChange} else r;
    var r := if sym == KeyF then r + {ModeText} else r;
    var r := if sym == KeyEscape then r + {Close} else r;
    var r := if sym == KeyW then r + {Up} else r;
    var r := if sym == KeyS then r + {Down} else r;
    var r := if sym == KeyA then r + {Left} else r;
    if sym == KeyD then r + {Right} else r
  }

  /** The key bindings as a table: the request a first press of each key makes. */
  const PressBindings: map<int, Request> := map[KeyR := HotReload, KeySpace := ModeChange,
    KeyF := ModeText, KeyEscape := Close, KeyW := Up, KeyS := Down, KeyA := Left, KeyD := Right]

  /** The movement keys as a table: the request releasing each withdraws. */
  const ReleaseBindings: map<int, Request> := map[KeyW := Up, KeyS := Down, KeyA := Left, KeyD := Right]

  /** The requests a binding table gives a key: its one request, or none for an unbound key. */
  function Bound(bindings: map<int, Request>, sym: int): set<Request> {
    if sym in bindings then {bindings[sym]} else {}
  }

  /** Every EVENT_* flag is one bit, and no two share a bit. */
  lemma FlagsAreDistinctBits(p: Request, q: Request)
    ensures Flag(p) & (Flag(p) - 1) == 0
    ensures p != q ==> Flag(p) & Flag(q) == 0
  {
  }

  /** SDL_QUIT adds the close request and changes nothing else. */
  lemma QuitRequestsClose(prev: EventsData)
    ensures var r := HandleEvents(Quit, prev);
      r.xrel == prev.xrel && r.yrel == prev.yrel && Close in r.requests &&
      r.requests - {Close} == prev.requests - {Close}
  {
  }

  /** Mouse motion overwrites the frame's deltas with the event's, it does not add them up. */
  lemma MotionOverwrites(prev: EventsData, x: int, y: int)
    ensures HandleEvents(MouseMotion(x, y), prev) == EventsData(x, y, prev.requests)
  {
  }

  /**
   * A first key press adds the request the key is bound to (none for an unbound key) and keeps
   * the deltas; a repeated press changes nothing.
   */
  lemma KeyDownSetsItsFlag(prev: EventsData, sym: int, repeat: int)
    ensures var r := HandleEvents(KeyDown(sym, repeat), prev);
      if repeat == 0 then
        r == prev.(requests := prev.requests + Bound(PressBindings, sym))
      else r == prev
  {
  }

  /**
   * Releasing a movement key withdraws its request and keeps the deltas; releasing any other
   * key, and a key-up that is not a release, changes nothing.
   */
  lemma KeyUpClearsItsFlag(prev: EventsData, sym: int, state: int)
    ensures var r := HandleEvents(KeyUp(sym, state), prev);
      if state == Released then
        r == prev.(requests := prev.requests - Bound(ReleaseBindings, sym))
      else r == prev
  {
  }

  /** handle_events never withdraws a request other than a movement request. */
  lemma OnlyMovementIsCleared(e: Event, prev: EventsData)
    ensures prev.requests - Movement <= HandleEvents(e, prev).requests
  {
  }

  /** The poll loop: every queued event in turn. */
  function Fold(evs: EventsData, queue: seq<Event>): EventsData
    decreases |queue|
  {
    if queue == [] then evs else Fold(HandleEvents(queue[0], evs), queue[1..])
  }

  /** Once requested, a close stays requested for the rest of the queue. */
  lemma {:induction false} CloseIsSticky(evs: EventsData, queue: seq<Event>)
    requires Close in evs.requests
    ensures Close in Fold(evs, queue).requests
    decreases |queue|
  {
    if queue != [] {
      OnlyMovementIsCleared(queue[0], evs);
      CloseIsSticky(HandleEvents(queue[0], evs), queue[1..]);
    }
  }

  /** A movement request stays pending through any queue that holds no release of its key. */
  lemma {:induction false} HeldKeyStaysRequested(evs: EventsData, queue: seq<Event>, sym: int)
    requires sym in ReleaseBindings && ReleaseBindings[sym] in evs.requests
    requires forall i :: 0 <= i < |queue| ==> queue[i] != KeyUp(sym, Released)
    ensures ReleaseBindings[sym] in Fold(evs, queue).requests
    decreases |queue|
  {
    if queue != [] {
      var e := queue[0];
      assert e != KeyUp(sym, Released);
      if e.KeyUp? && e.state == Released {
        KeyUpClearsItsFlag(evs, e.sym, e.state);
      }
      HeldKeyStaysRequested(HandleEvents(e, evs), queue[1..], sym);
    }
  }

  /** A quit or an Escape press anywhere in the queue requests a close. */
  lemma {:induction false} QuitClosesFrame(evs: EventsData, queue: seq<Event>, i: nat)
    requires i < |queue| && (queue[i] == Quit || queue[i] == KeyDown(KeyEscape, 0))
    ensures Close in Fold(evs, queue).requests
    decreases i
  {
    if i == 0 {
      CloseIsSticky(HandleEvents(queue[0], evs), queue[1..]);
    } else {
      QuitClosesFrame(HandleEvents(queue[0], evs), queue[1..], i - 1);
    }
  }

  /** The deltas of the last motion event in the queue, or those the fold started from. */
  function LastMotion(start: (int, int), queue: seq<Event>): (int, int)
    decreases |queue|
  {
    if queue == [] then start
    else
      var last := queue[|queue| - 1];
      if last.MouseMotion? then (last.xrel, last.yrel) else LastMotion(start, queue[..|queue| - 1])
  }

  lemma {:induction false} FoldAppend(evs: EventsData, queue: seq<Event>, e: Event)
    ensures Fold(evs, queue + [e]) == HandleEvents(e, Fold(evs, queue))
    decreases |queue|
  {
    if queue == [] {
      assert [] + [e] == [e];
    } else {
      assert (queue + [e])[1..] == queue[1..] + [e];
      FoldAppend(HandleEvents(queue[0], evs), queue[1..], e);
    }
  }

  /** After the poll loop the frame's deltas are those of the last motion event only. */
  lemma {:induction false} FoldKeepsLastMotion(evs: EventsData, queue: seq<Event>)
    ensures var r := Fold(evs, queue); (r.xrel, r.yrel) == LastMotion((evs.xrel, evs.yrel), queue)
    decreases |queue|
  {
    if queue != [] {
      var init := queue[..|queue| - 1];
      var last := queue[|queue| - 1];
      assert queue == init + [last];
      FoldAppend(evs, init, last);
      FoldKeepsLastMotion(evs, init);
    }
  }
}
