/**
 * The detection orchestrator (`SceneController`): a single-flight guard around
 * one vision request at a time, the depth frame saved for it, and the
 * completion callback that restores the UI, announces the labels, anchors the
 * labels it can in the world and releases the frame.
 *
 * The collaborators whose code is not part of this model (speech UI, loading
 * indicator, response UI, debug visualizer, vision client) are seen only
 * through the calls made to them, recorded in a ghost trace of `Effect`s.
 * The depth cache is an opaque map from frame id to liveness plus a fixed
 * pixel-to-world lookup.
 */
module Detection {
  import opened Wrappers

  /** A position in the camera image, in pixels. */
  datatype Pixel = Pixel(x: real, y: real)

  /** A position in world space. */
  datatype WorldPos = WorldPos(x: real, y: real, z: real)

  /** One point of the vision model's answer: its label, where it is in the image, and whether its world label gets an arrow. */
  datatype Point = Point(name: string, pixelPos: Pixel, showArrow: bool)

  datatype GeminiResponse = GeminiResponse(aiMessage: string, points: seq<Point>)

  /** The camera texture the depth cache keeps with a saved frame. */
  datatype Image = CameraImage(frame: nat)

  /** Which of the optional inputs are assigned, and the debug switch. */
  datatype Wiring = Wiring(hasSpeechUI: bool, hasResponseUI: bool, showDebugVisuals: bool, hasDebugVisualizer: bool)

  /** What the completion callback of the request in flight has captured. */
  datatype Request = Request(image: Image, prompt: string, frame: nat)

  /** A call the orchestrator makes on a collaborator. */
  datatype Effect =
    | SpeechButton(active: bool)
    | Loader(active: bool)
    | ClearLabels
    | CloseBubble
    | SaveFrame(frame: nat)
    | CamImage(frame: nat)
    | GeminiRequest(image: Image, prompt: string)
    | UpdateCameraFrame(image: Image)
    | OpenBubble(message: string)
    | ObjectsDetected(labels: seq<string>)
    | VisualizePoint(pixel: Pixel, image: Image)
    | WorldLookup(pixel: Pixel, frame: nat)
    | WorldLabel(name: string, pos: WorldPos, showArrow: bool)
    | Dispose(frame: nat)

  /** The prompt of a key or tap trigger. */
  const DefaultPrompt: string := "What do you see? " + "Show me all the objects you can identify."

  // ---------------------------------------------------------------------------
  // The calls of one trigger and of one completion

  /** `speechUI.activateSpeechButton(active)`, made only when the speech UI is assigned. */
  function SpeechButtonEffect(w: Wiring, active: bool): seq<Effect> {
    if w.hasSpeechUI then [SpeechButton(active)] else []
  }

  /** The busy state of an accepted trigger: loader shown, previous labels cleared, bubble closed. */
  function BusyEffects(w: Wiring): seq<Effect> {
    [Loader(true)] + (if w.hasResponseUI then [ClearLabels, CloseBubble] else [])
  }

  /** The capture of frame `f`, the request with its image, and the debug camera frame. */
  function CaptureEffects(w: Wiring, text: string, f: nat): seq<Effect> {
    [SaveFrame(f), CamImage(f), GeminiRequest(CameraImage(f), text)]
    + (if w.showDebugVisuals && w.hasDebugVisualizer then [UpdateCameraFrame(CameraImage(f))] else [])
  }

  /** The calls of an accepted trigger after the speech button. */
  function AcceptEffects(w: Wiring, text: string, f: nat): seq<Effect> {
    BusyEffects(w) + CaptureEffects(w, text, f)
  }

  /** The raw labels of the points, in order, duplicates kept. */
  function Labels(points: seq<Point>): (labels: seq<string>)
    ensures |labels| == |points|
    ensures forall i :: 0 <= i < |points| ==> labels[i] == points[i].name
  {
    seq(|points|, i requires 0 <= i < |points| => points[i].name)
  }

  /** The first calls of the completion callback: speech button back on, loader hidden, bubble opened. */
  function RestoreEffects(w: Wiring, response: GeminiResponse): (e: seq<Effect>)
    ensures forall x :: x in e ==> x.SpeechButton? || x.Loader? || x.OpenBubble?
  {
    SpeechButtonEffect(w, true) + [Loader(false)]
    + (if w.hasResponseUI then [OpenBubble(response.aiMessage)] else [])
  }

  /** The calls made before the point loop: idle UI restored, then the labels announced. */
  function ResponseHead(w: Wiring, response: GeminiResponse): seq<Effect> {
    RestoreEffects(w, response) + [ObjectsDetected(Labels(response.points))]
  }

  /** The calls for one point: its debug visual, its depth lookup in the request's frame, and its world label when the lookup found a position. */
  function PointStep(w: Wiring, req: Request, p: Point, world: (nat, Pixel) -> Option<WorldPos>): seq<Effect> {
    (if w.showDebugVisuals && w.hasDebugVisualizer then [VisualizePoint(p.pixelPos, req.image)] else [])
    + [WorldLookup(p.pixelPos, req.frame)]
    + (if w.hasResponseUI then PlacedOne(req.frame, p, world) else [])
  }

  /** The point loop, one step per point in order. */
  function PointEffects(w: Wiring, req: Request, points: seq<Point>, world: (nat, Pixel) -> Option<WorldPos>): seq<Effect>
    decreases |points|
  {
    if points == [] then []
    else PointEffects(w, req, points[..|points| - 1], world) + PointStep(w, req, points[|points| - 1], world)
  }

  lemma PointEffectsSnoc(w: Wiring, req: Request, points: seq<Point>, i: nat, world: (nat, Pixel) -> Option<WorldPos>)
    requires i < |points|
    ensures PointEffects(w, req, points[..i + 1], world) == PointEffects(w, req, points[..i], world) + PointStep(w, req, points[i], world)
  {
    assert points[..i + 1][..i] == points[..i];
  }

  lemma Associate(a: seq<Effect>, b: seq<Effect>, c: seq<Effect>)
    ensures (a + b) + c == a + (b + c)
  {
  }

  /** Every call the completion callback makes, the frame's disposal last. */
  function CompletionEffects(w: Wiring, req: Request, response: GeminiResponse,
                             world: (nat, Pixel) -> Option<WorldPos>): seq<Effect> {
    ResponseHead(w, response) + PointEffects(w, req, response.points, world) + [Dispose(req.frame)]
  }

  /** The world label a point gets when its lookup in `frame` finds a position. */
  function PlacedOne(frame: nat, p: Point, world: (nat, Pixel) -> Option<WorldPos>): seq<Effect> {
    match world(frame, p.pixelPos)
    case Some(pos) => [WorldLabel(p.name, pos, p.showArrow)]
    case None => []
  }

  /** The world labels that belong in the world: one per point whose lookup in `frame` found a position, in point order. */
  function Placed(frame: nat, points: seq<Point>, world: (nat, Pixel) -> Option<WorldPos>): seq<Effect>
    decreases |points|
  {
    if points == [] then []
    else Placed(frame, points[..|points| - 1], world) + PlacedOne(frame, points[|points| - 1], world)
  }

  /** The world-label calls of a call sequence, in order. */
  function WorldLabelsOf(e: seq<Effect>): (labels: seq<Effect>)
    ensures |labels| <= |e|
    ensures forall x :: x in labels ==> x.WorldLabel? && x in e
    decreases |e|
  {
    if e == [] then []
    else (if e[0].WorldLabel? then [e[0]] else []) + WorldLabelsOf(e[1..])
  }

  lemma {:induction false} WorldLabelsOfAppend(a: seq<Effect>, b: seq<Effect>)
    ensures WorldLabelsOf(a + b) == WorldLabelsOf(a) + WorldLabelsOf(b)
    decreases |a|
  {
    if a != [] {
      assert (a + b)[0] == a[0] && (a + b)[1..] == a[1..] + b;
      WorldLabelsOfAppend(a[1..], b);
    } else {
      assert a + b == b;
    }
  }

  lemma WorldLabelsOfNone(e: seq<Effect>)
    requires forall x :: x in e ==> !x.WorldLabel?
    ensures WorldLabelsOf(e) == []
  {
    if WorldLabelsOf(e) != [] {
      assert WorldLabelsOf(e)[0] in WorldLabelsOf(e);
    }
  }

  // ---------------------------------------------------------------------------
  // What a trigger and a completion promise

  /** Where an accepted trigger saves its frame: after the loader and, when assigned, the response-UI reset. */
  function SaveIndex(w: Wiring): nat {
    if w.hasResponseUI then 3 else 1
  }

  /**
   * An accepted trigger shows the loader first, then clears the labels and
   * closes the bubble, then saves exactly one frame, and then asks for that
   * frame's camera image and sends that image with the text.
   */
  lemma AcceptEffectsOrder(w: Wiring, text: string, f: nat)
    ensures var e := AcceptEffects(w, text, f);
            var k := SaveIndex(w);
            && k + 3 <= |e|
            && e[0] == Loader(true)
            && (w.hasResponseUI ==> e[1] == ClearLabels && e[2] == CloseBubble)
            && e[k] == SaveFrame(f) && e[k + 1] == CamImage(f) && e[k + 2] == GeminiRequest(CameraImage(f), text)
            && (forall j :: 0 <= j < |e| && e[j].SaveFrame? ==> j == k)
    ensures forall x :: x in AcceptEffects(w, text, f) ==> !x.Dispose? && !x.WorldLookup? && !x.ObjectsDetected?
  {
    var e := AcceptEffects(w, text, f);
    var pre := if w.hasResponseUI then [Loader(true), ClearLabels, CloseBubble] else [Loader(true)];
    var post := [CamImage(f), GeminiRequest(CameraImage(f), text)]
                + (if w.showDebugVisuals && w.hasDebugVisualizer then [UpdateCameraFrame(CameraImage(f))] else []);
    assert e == pre + [SaveFrame(f)] + post;
  }

  /** Every call of the point loop is a debug visual, a lookup in the request's frame, or a world label. */
  lemma {:induction false} PointEffectsKinds(w: Wiring, req: Request, points: seq<Point>, world: (nat, Pixel) -> Option<WorldPos>)
    ensures forall x :: x in PointEffects(w, req, points, world) ==>
              x.VisualizePoint? || (x.WorldLookup? && x.frame == req.frame) || x.WorldLabel?
    decreases |points|
  {
    if points != [] {
      PointEffectsKinds(w, req, points[..|points| - 1], world);
    }
  }

  /** The world labels of the point loop are exactly the placed points (when the response UI is assigned). */
  lemma {:induction false} PointEffectsWorldLabels(w: Wiring, req: Request, points: seq<Point>,
                                                  world: (nat, Pixel) -> Option<WorldPos>)
    ensures WorldLabelsOf(PointEffects(w, req, points, world)) ==
            (if w.hasResponseUI then Placed(req.frame, points, world) else [])
    decreases |points|
  {
    if points != [] {
      var init, p := points[..|points| - 1], points[|points| - 1];
      PointEffectsWorldLabels(w, req, init, world);
      WorldLabelsOfAppend(PointEffects(w, req, init, world), PointStep(w, req, p, world));
      PointStepWorldLabels(w, req, p, world);
    }
  }

  lemma PointStepWorldLabels(w: Wiring, req: Request, p: Point, world: (nat, Pixel) -> Option<WorldPos>)
    ensures WorldLabelsOf(PointStep(w, req, p, world)) == (if w.hasResponseUI then PlacedOne(req.frame, p, world) else [])
  {
    var vis := if w.showDebugVisuals && w.hasDebugVisualizer then [VisualizePoint(p.pixelPos, req.image)] else [];
    var tail := if w.hasResponseUI then PlacedOne(req.frame, p, world) else [];
    WorldLabelsOfAppend(vis + [WorldLookup(p.pixelPos, req.frame)], tail);
    WorldLabelsOfNone(vis + [WorldLookup(p.pixelPos, req.frame)]);
    assert WorldLabelsOf(tail) == tail;
  }

  /**
   * The labels are announced exactly once, with every point's label in order,
   * before any world label is placed.
   */
  lemma CompletionLabelsOnce(w: Wiring, req: Request, response: GeminiResponse,
                             world: (nat, Pixel) -> Option<WorldPos>)
    ensures var e := CompletionEffects(w, req, response, world);
            exists k :: 0 <= k < |e| && e[k] == ObjectsDetected(Labels(response.points))
              && (forall j :: 0 <= j < |e| && e[j].ObjectsDetected? ==> j == k)
              && (forall j :: 0 <= j < |e| && e[j].WorldLabel? ==> k < j)
  {
    var head := ResponseHead(w, response);
    var loop := PointEffects(w, req, response.points, world);
    var e := CompletionEffects(w, req, response, world);
    var restore := RestoreEffects(w, response);
    var k := |restore|;
    PointEffectsKinds(w, req, response.points, world);
    assert e == head + loop + [Dispose(req.frame)];
    assert e[k] == head[k] == ObjectsDetected(Labels(response.points));
    forall j | 0 <= j < |e| && (e[j].ObjectsDetected? || e[j].WorldLabel?)
      ensures (e[j].ObjectsDetected? ==> j == k) && (e[j].WorldLabel? ==> k < j)
    {
      if |head| <= j < |head| + |loop| {
        assert e[j] == loop[j - |head|];
        assert e[j] in loop;
      }
    }
  }

  /** A world label is placed, in point order, exactly for the points whose depth lookup found a position; a miss skips only that point. */
  lemma CompletionWorldLabels(w: Wiring, req: Request, response: GeminiResponse,
                              world: (nat, Pixel) -> Option<WorldPos>)
    ensures WorldLabelsOf(CompletionEffects(w, req, response, world)) ==
            (if w.hasResponseUI then Placed(req.frame, response.points, world) else [])
  {
    var head := ResponseHead(w, response);
    var loop := PointEffects(w, req, response.points, world);
    var tail := [Dispose(req.frame)];
    HeadPlacesNothing(w, response);
    WorldLabelsOfNone(tail);
    WorldLabelsOfMiddle(head, loop, tail);
    PointEffectsWorldLabels(w, req, response.points, world);
  }

  /** Between two call sequences that place nothing, the world labels are those of the middle one. */
  lemma WorldLabelsOfMiddle(a: seq<Effect>, b: seq<Effect>, c: seq<Effect>)
    requires WorldLabelsOf(a) == [] && WorldLabelsOf(c) == []
    ensures WorldLabelsOf(a + b + c) == WorldLabelsOf(b)
  {
    WorldLabelsOfAppend(a + b, c);
    WorldLabelsOfAppend(a, b);
  }

  /** Before the point loop no world label is placed. */
  lemma HeadPlacesNothing(w: Wiring, response: GeminiResponse)
    ensures WorldLabelsOf(ResponseHead(w, response)) == []
  {
    var head := ResponseHead(w, response);
    forall x | x in head
      ensures !x.WorldLabel?
    {
      if x in RestoreEffects(w, response) {
      }
    }
    WorldLabelsOfNone(head);
  }

  /**
   * The frame is disposed exactly once, as the last call, even for an empty
   * answer; every depth lookup before it uses that frame.
   */
  lemma CompletionDisposesOnce(w: Wiring, req: Request, response: GeminiResponse,
                               world: (nat, Pixel) -> Option<WorldPos>)
    ensures var e := CompletionEffects(w, req, response, world);
            && e[|e| - 1] == Dispose(req.frame)
            && (forall j :: 0 <= j < |e| - 1 ==> !e[j].Dispose?)
            && (forall j :: 0 <= j < |e| && e[j].WorldLookup? ==> e[j].frame == req.frame)
  {
    var head := ResponseHead(w, response);
    var loop := PointEffects(w, req, response.points, world);
    var e := CompletionEffects(w, req, response, world);
    PointEffectsKinds(w, req, response.points, world);
    forall j | 0 <= j < |e| - 1 ensures !e[j].Dispose? && (e[j].WorldLookup? ==> e[j].frame == req.frame) {
      if j < |head| {
        assert e[j] == head[j];
      } else {
        assert e[j] == loop[j - |head|];
        assert e[j] in loop;
      }
    }
  }

  /**
   * A lookup that finds nothing skips its point, not the rest: with three
   * points of which only the second has no depth, two world labels are placed
   * and all three labels are announced.
   */
  lemma ResolutionSkipNotAbort(w: Wiring, req: Request, response: GeminiResponse,
                               world: (nat, Pixel) -> Option<WorldPos>)
    requires w.hasResponseUI && |response.points| == 3
    requires world(req.frame, response.points[0].pixelPos).Some?
    requires world(req.frame, response.points[1].pixelPos).None?
    requires world(req.frame, response.points[2].pixelPos).Some?
    ensures |WorldLabelsOf(CompletionEffects(w, req, response, world))| == 2
    ensures ObjectsDetected(Labels(response.points)) in CompletionEffects(w, req, response, world)
    ensures |Labels(response.points)| == 3
  {
    var ps := response.points;
    CompletionWorldLabels(w, req, response, world);
    assert ps[..2][..1] == ps[..1] && ps[..3] == ps && ps[..1][..0] == [];
    assert |Placed(req.frame, ps[..1], world)| == 1;
    assert |Placed(req.frame, ps[..2], world)| == 1;
    CompletionLabelsOnce(w, req, response, world);
  }

  /**
   * The two-point example: "book" has depth at frame F1, "phone" has none.
   * The bubble shows the message, the labels are announced as ["book",
   * "phone"], only "book" is placed in the world, and F1 is disposed last.
   */
  lemma BookAndPhoneExample(w: Wiring, req: Request, world: (nat, Pixel) -> Option<WorldPos>)
    requires w.hasResponseUI
    requires world(req.frame, Pixel(10.0, 20.0)) == Some(WorldPos(0.1, 0.2, 1.0))
    requires world(req.frame, Pixel(30.0, 40.0)) == None
    ensures var response := GeminiResponse("I see a book and a phone",
                                           [Point("book", Pixel(10.0, 20.0), true), Point("phone", Pixel(30.0, 40.0), false)]);
            var e := CompletionEffects(w, req, response, world);
            && OpenBubble("I see a book and a phone") in e
            && ObjectsDetected(["book", "phone"]) in e
            && WorldLabelsOf(e) == [WorldLabel("book", WorldPos(0.1, 0.2, 1.0), true)]
            && e[|e| - 1] == Dispose(req.frame)
  {
    var ps := [Point("book", Pixel(10.0, 20.0), true), Point("phone", Pixel(30.0, 40.0), false)];
    var response := GeminiResponse("I see a book and a phone", ps);
    var head := ResponseHead(w, response);
    assert Labels(ps) == ["book", "phone"];
    assert head[|head| - 2] == OpenBubble("I see a book and a phone");
    CompletionWorldLabels(w, req, response, world);
    assert ps[..1] == [ps[0]] && ps[..1][..0] == [];
    assert Placed(req.frame, ps, world) == [WorldLabel("book", WorldPos(0.1, 0.2, 1.0), true)];
    CompletionLabelsOnce(w, req, response, world);
  }

  // ---------------------------------------------------------------------------
  // The completion callback as written

  /**
   * The point loop as written: the debug visual is guarded by
   * `showDebugVisuals` alone, so with no visualizer assigned the first point
   * throws a TypeError and the loop stops there. Returns the calls made and
   * whether it threw.
   */
  function PointLoopAsWritten(w: Wiring, req: Request, points: seq<Point>,
                              world: (nat, Pixel) -> Option<WorldPos>): (seq<Effect>, bool)
    decreases |points|
  {
    if points == [] then ([], false)
    else
      var (e, threw) := PointLoopAsWritten(w, req, points[..|points| - 1], world);
      if threw || (w.showDebugVisuals && !w.hasDebugVisualizer) then (e, true)
      else (e + PointStep(w, req, points[|points| - 1], world), false)
  }

  /** The completion callback as written: a throw in the loop ends the callback before the disposal. */
  function CompletionAsWritten(w: Wiring, req: Request, response: GeminiResponse,
                               world: (nat, Pixel) -> Option<WorldPos>): seq<Effect> {
    var (loop, threw) := PointLoopAsWritten(w, req, response.points, world);
    ResponseHead(w, response) + loop + (if threw then [] else [Dispose(req.frame)])
  }

  lemma {:induction false} PointLoopAsWrittenThrows(w: Wiring, req: Request, points: seq<Point>,
                                                   world: (nat, Pixel) -> Option<WorldPos>)
    requires w.showDebugVisuals && !w.hasDebugVisualizer && points != []
    ensures PointLoopAsWritten(w, req, points, world) == ([], true)
    decreases |points|
  {
    if |points| > 1 {
      PointLoopAsWrittenThrows(w, req, points[..|points| - 1], world);
    }
  }

  lemma {:induction false} PointLoopAsWrittenAgrees(w: Wiring, req: Request, points: seq<Point>,
                                                   world: (nat, Pixel) -> Option<WorldPos>)
    requires !(w.showDebugVisuals && !w.hasDebugVisualizer)
    ensures PointLoopAsWritten(w, req, points, world) == (PointEffects(w, req, points, world), false)
    decreases |points|
  {
    if points != [] {
      PointLoopAsWrittenAgrees(w, req, points[..|points| - 1], world);
    }
  }

  /**
   * As written, debug visuals switched on without a visualizer and a
   * non-empty answer leave the frame undisposed and place no world label.
   */
  lemma FrameLeakAsWritten(w: Wiring, req: Request, response: GeminiResponse,
                           world: (nat, Pixel) -> Option<WorldPos>)
    requires w.showDebugVisuals && !w.hasDebugVisualizer && response.points != []
    ensures Dispose(req.frame) !in CompletionAsWritten(w, req, response, world)
    ensures WorldLabelsOf(CompletionAsWritten(w, req, response, world)) == []
  {
    PointLoopAsWrittenThrows(w, req, response.points, world);
    var head := ResponseHead(w, response);
    assert CompletionAsWritten(w, req, response, world) == head;
    WorldLabelsOfNone(head);
  }

  /** Wherever the as-written guard does not throw, it makes the same calls as the corrected callback. */
  lemma AsWrittenAgreesWhenWired(w: Wiring, req: Request, response: GeminiResponse,
                                 world: (nat, Pixel) -> Option<WorldPos>)
    requires !(w.showDebugVisuals && !w.hasDebugVisualizer)
    ensures CompletionAsWritten(w, req, response, world) == CompletionEffects(w, req, response, world)
  {
    PointLoopAsWrittenAgrees(w, req, response.points, world);
  }

  // ---------------------------------------------------------------------------
  // The depth cache

  /** `DepthCache`: saved frames by id, each still live or disposed, and what its depth data says about a pixel of a frame. */
  class DepthCache {
    var frames: map<nat, bool>
    var nextFrame: nat
    const world: (nat, Pixel) -> Option<WorldPos>

    ghost predicate Valid()
      reads this
    {
      forall f :: f in frames ==> f < nextFrame
    }

    /** Frame `f` was saved and not yet disposed. */
    predicate Live(f: nat)
      reads this
    {
      f in frames && frames[f]
    }

    constructor (world: (nat, Pixel) -> Option<WorldPos>)
      ensures Valid() && frames == map[] && this.world == world
    {
      frames := map[];
      nextFrame := 0;
      this.world := world;
    }

    /** `saveDepthFrame`: a frame id never issued before, now live. */
    method SaveDepthFrame() returns (id: nat)
      requires Valid()
      modifies this
      ensures Valid()
      ensures id !in old(frames) && frames == old(frames)[id := true]
    {
      id := nextFrame;
      frames := frames[id := true];
      nextFrame := nextFrame + 1;
    }

    /** `getCamImageWithID`: the camera image kept with a live frame. */
    method GetCamImageWithID(id: nat) returns (image: Image)
      requires Live(id)
      ensures image == CameraImage(id)
    {
      image := CameraImage(id);
    }

    /** `getWorldPositionWithID`: the world position of a pixel of a live frame, if the frame has depth there. */
    method GetWorldPositionWithID(pixel: Pixel, id: nat) returns (pos: Option<WorldPos>)
      requires Live(id)
      ensures pos == world(id, pixel)
    {
      pos := world(id, pixel);
    }

    /** `disposeDepthFrame`: a live frame is released and stays released. */
    method DisposeDepthFrame(id: nat)
      requires Valid() && Live(id)
      modifies this
      ensures Valid()
      ensures frames == old(frames)[id := false] && nextFrame == old(nextFrame)
    {
      frames := frames[id := false];
    }
  }

  // ---------------------------------------------------------------------------
  // The orchestrator

  class SceneController {
    const wiring: Wiring
    const depthCache: DepthCache
    var isRequestRunning: bool
    /** The request whose completion callback is outstanding. */
    var pending: Option<Request>
    /** Every call made on a collaborator, in order. */
    ghost var trace: seq<Effect>

    /**
     * A request is outstanding exactly while the flag is set; its frame is
     * live and is the only live frame; its image is that frame's image.
     */
    ghost predicate Valid()
      reads this, depthCache
    {
      && depthCache.Valid()
      && (isRequestRunning <==> pending.Some?)
      && (pending.Some? ==> depthCache.Live(pending.value.frame) && pending.value.image == CameraImage(pending.value.frame))
      && (forall f :: f in depthCache.frames && depthCache.frames[f] ==> pending.Some? && f == pending.value.frame)
    }

    constructor (wiring: Wiring, depthCache: DepthCache)
      requires depthCache.Valid() && forall f :: f in depthCache.frames ==> !depthCache.frames[f]
      ensures Valid()
      ensures this.wiring == wiring && this.depthCache == depthCache
      ensures !isRequestRunning && trace == []
    {
      this.wiring := wiring;
      this.depthCache := depthCache;
      isRequestRunning := false;
      pending := None;
      trace := [];
    }

    /** `onObjectDetectionTriggered`: a key or tap trigger is a trigger with the fixed prompt. */
    method OnObjectDetectionTriggered()
      requires Valid()
      modifies this, depthCache
      ensures Valid()
      ensures old(isRequestRunning) ==>
                && isRequestRunning && pending == old(pending)
                && depthCache.frames == old(depthCache.frames)
                && trace == old(trace) + SpeechButtonEffect(wiring, false)
      ensures !old(isRequestRunning) ==>
                && isRequestRunning && pending.Some?
                && pending.value == Request(CameraImage(pending.value.frame), DefaultPrompt, pending.value.frame)
                && pending.value.frame !in old(depthCache.frames)
                && depthCache.frames == old(depthCache.frames)[pending.value.frame := true]
                && trace == old(trace) + SpeechButtonEffect(wiring, false)
                           + AcceptEffects(wiring, DefaultPrompt, pending.value.frame)
    {
      OnSpeechReceived(DefaultPrompt);
    }

    /**
     * `onSpeechRecieved`: the speech button is switched off first, even for a
     * trigger that is then dropped. A trigger while a request runs changes
     * nothing else. An accepted one sets the flag, shows the loader, clears
     * the response UI, saves one new frame, and sends its image with the text.
     */
    method OnSpeechReceived(text: string)
      requires Valid()
      modifies this, depthCache
      ensures Valid()
      ensures old(isRequestRunning) ==>
                && isRequestRunning && pending == old(pending)
                && depthCache.frames == old(depthCache.frames)
                && trace == old(trace) + SpeechButtonEffect(wiring, false)
      ensures !old(isRequestRunning) ==>
                && isRequestRunning && pending.Some?
                && pending.value == Request(CameraImage(pending.value.frame), text, pending.value.frame)
                && pending.value.frame !in old(depthCache.frames)
                && depthCache.frames == old(depthCache.frames)[pending.value.frame := true]
                && trace == old(trace) + SpeechButtonEffect(wiring, false) + AcceptEffects(wiring, text, pending.value.frame)
    {
      if wiring.hasSpeechUI {
        trace := trace + [SpeechButton(false)];
      }
      if isRequestRunning {
        return;
      }
      ghost var t0 := trace;
      EnterBusy();
      CaptureAndSend(text);
      Associate(t0, BusyEffects(wiring), CaptureEffects(wiring, text, pending.value.frame));
    }

    /** An accepted trigger marks the request as running, shows the loader and clears the previous labels and bubble. */
    method EnterBusy()
      modifies this
      ensures isRequestRunning && pending == old(pending)
      ensures trace == old(trace) + BusyEffects(wiring)
    {
      isRequestRunning := true;
      trace := trace + [Loader(true)];
      if wiring.hasResponseUI {
        trace := trace + [ClearLabels, CloseBubble];
      }
    }

    /**
     * The rest of an accepted trigger: a new frame is saved, its camera image
     * is sent with the text, and the image is shown on the debug visualizer.
     * The new frame is the only live one.
     */
    method CaptureAndSend(text: string)
      requires depthCache.Valid() && forall g :: g in depthCache.frames ==> !depthCache.frames[g]
      modifies this, depthCache
      ensures isRequestRunning == old(isRequestRunning) && pending.Some?
      ensures pending.value == Request(CameraImage(pending.value.frame), text, pending.value.frame)
      ensures depthCache.Valid()
      ensures pending.value.frame !in old(depthCache.frames)
      ensures depthCache.frames == old(depthCache.frames)[pending.value.frame := true]
      ensures trace == old(trace) + CaptureEffects(wiring, text, pending.value.frame)
    {
      var depthFrameId := depthCache.SaveDepthFrame();
      trace := trace + [SaveFrame(depthFrameId)];
      var camImage := depthCache.GetCamImageWithID(depthFrameId);
      trace := trace + [CamImage(depthFrameId)];
      SendToGemini(camImage, text, depthFrameId);
      if wiring.showDebugVisuals && wiring.hasDebugVisualizer {
        trace := trace + [UpdateCameraFrame(camImage)];
      }
    }

    /** `sendToGemini`: the request goes out and its completion callback, holding the image and the frame, is outstanding. */
    method SendToGemini(cameraFrame: Image, text: string, depthFrameId: nat)
      modifies this
      ensures pending == Some(Request(cameraFrame, text, depthFrameId))
      ensures isRequestRunning == old(isRequestRunning)
      ensures trace == old(trace) + [GeminiRequest(cameraFrame, text)]
    {
      pending := Some(Request(cameraFrame, text, depthFrameId));
      trace := trace + [GeminiRequest(cameraFrame, text)];
    }

    /**
     * The completion callback of `sendToGemini`, with the debug visual guarded
     * by the visualizer being assigned (as the camera-frame update is). It
     * clears the flag, makes exactly the calls `CompletionEffects` lists, and
     * leaves the request's frame disposed.
     */
    method OnGeminiResponse(response: GeminiResponse)
      requires Valid() && pending.Some?
      modifies this, depthCache
      ensures Valid()
      ensures !isRequestRunning && pending == None
      ensures depthCache.frames == old(depthCache.frames)[old(pending.value.frame) := false]
      ensures trace == old(trace) + CompletionEffects(wiring, old(pending.value), response, depthCache.world)
    {
      var req := pending.value;
      RestoreIdle(response);
      var detectedLabels := CollectLabels(response.points);
      trace := trace + [ObjectsDetected(detectedLabels)];
      assert trace == old(trace) + ResponseHead(wiring, response);
      PlaceWorldLabels(req, response.points);
      depthCache.DisposeDepthFrame(req.frame);
      trace := trace + [Dispose(req.frame)];
    }

    /** The start of the completion callback: the flag is cleared, the speech button re-enabled, the loader hidden and the bubble opened with the message. */
    method RestoreIdle(response: GeminiResponse)
      modifies this
      ensures !isRequestRunning && pending == None
      ensures trace == old(trace) + RestoreEffects(wiring, response)
    {
      isRequestRunning := false;
      pending := None;
      if wiring.hasSpeechUI {
        trace := trace + [SpeechButton(true)];
      }
      trace := trace + [Loader(false)];
      if wiring.hasResponseUI {
        trace := trace + [OpenBubble(response.aiMessage)];
      }
    }

    /** The first loop of the completion callback: every point's label, in order. */
    method CollectLabels(points: seq<Point>) returns (detectedLabels: seq<string>)
      ensures detectedLabels == Labels(points)
    {
      detectedLabels := [];
      var i := 0;
      while i < |points|
        invariant 0 <= i <= |points|
        invariant |detectedLabels| == i
        invariant forall k :: 0 <= k < i ==> detectedLabels[k] == points[k].name
      {
        detectedLabels := detectedLabels + [points[i].name];
        i := i + 1;
      }
    }

    /** The second loop of the completion callback: per point, its debug visual, its lookup in the request's live frame, and its world label if the lookup found a position. */
    method PlaceWorldLabels(req: Request, points: seq<Point>)
      requires depthCache.Live(req.frame)
      modifies this`trace
      ensures trace == old(trace) + PointEffects(wiring, req, points, depthCache.world)
    {
      var i := 0;
      while i < |points|
        invariant 0 <= i <= |points|
        invariant trace == old(trace) + PointEffects(wiring, req, points[..i], depthCache.world)
      {
        ghost var done := PointEffects(wiring, req, points[..i], depthCache.world);
        ResolvePoint(req, points[i]);
        PointEffectsSnoc(wiring, req, points, i, depthCache.world);
        Associate(old(trace), done, PointStep(wiring, req, points[i], depthCache.world));
        i := i + 1;
      }
      assert points[..i] == points;
    }

    /** One iteration of the point loop: the debug visual, the depth lookup in the request's frame, and the world label when a position is found. */
    method ResolvePoint(req: Request, pointObj: Point)
      requires depthCache.Live(req.frame)
      modifies this`trace
      ensures trace == old(trace) + PointStep(wiring, req, pointObj, depthCache.world)
    {
      ghost var vis := if wiring.showDebugVisuals && wiring.hasDebugVisualizer
                       then [VisualizePoint(pointObj.pixelPos, req.image)] else [];
      if wiring.showDebugVisuals && wiring.hasDebugVisualizer {
        trace := trace + [VisualizePoint(pointObj.pixelPos, req.image)];
      }
      var worldPosition := depthCache.GetWorldPositionWithID(pointObj.pixelPos, req.frame);
      trace := trace + [WorldLookup(pointObj.pixelPos, req.frame)];
      assert trace == old(trace) + (vis + [WorldLookup(pointObj.pixelPos, req.frame)]);
      ghost var mid := trace;
      if worldPosition.Some? && wiring.hasResponseUI {
        trace := trace + [WorldLabel(pointObj.name, worldPosition.value, pointObj.showArrow)];
      }
      assert trace == mid + (if wiring.hasResponseUI then PlacedOne(req.frame, pointObj, depthCache.world) else []);
    }
  }
}
