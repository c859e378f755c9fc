/**
 The render-graph node of vsg::RenderGraph: a group node that, when recorded,
 resolves its render target (a framebuffer, or else a window), notices when
 the target's extent differs from the one seen at the previous frame and then
 hands over to the optional resize handler, begins the render pass with its
 render area, clear values and subpass contents, and records its children.

 The Vulkan command buffer is stood for by a RecordTraversal holding the list
 of events recorded into it; the Window, Framebuffer, RenderPass and resize
 handler are external collaborators reduced to the fields the node reads.
 */
module Viewer {

  type uint32 = x: int | 0 <= x < 0x1_0000_0000
  type int32 = x: int | -0x8000_0000 <= x < 0x8000_0000

  const UINT32_MAX: uint32 := 0xFFFF_FFFF

  datatype Extent2D = Extent2D(width: uint32, height: uint32)
  datatype Offset2D = Offset2D(x: int32, y: int32)
  datatype Rect2D = Rect2D(offset: Offset2D, extent: Extent2D)

  /** VkClearValue: a colour (the float channels as reals) or a depth/stencil pair. */
  datatype ClearValue =
    | ClearColor(red: real, green: real, blue: real, alpha: real)
    | ClearDepthStencil(depth: real, stencil: uint32)

  /** VkSubpassContents. */
  datatype SubpassContents = Inline | SecondaryCommandBuffers

  /** The sentinel `previous_extent` starts from, so that the first frame counts as a resize. */
  const INVALID_DIMENSION: uint32 := UINT32_MAX
  const INVALID_EXTENT: Extent2D := Extent2D(INVALID_DIMENSION, INVALID_DIMENSION)

  /** A render pass handle; only its identity matters here. */
  class RenderPass { }

  /** A framebuffer bound to the render pass it was created for, with a fixed extent. */
  class Framebuffer {
    const renderPass: RenderPass
    const extent: Extent2D

    constructor (renderPass: RenderPass, extent: Extent2D)
      ensures this.renderPass == renderPass && this.extent == extent
    {
      this.renderPass := renderPass;
      this.extent := extent;
    }
  }

  /**
   A window: its render pass, its currently active framebuffer and its
   current extent. The window's framebuffers are created for its render pass.
   */
  class Window {
    const renderPass: RenderPass
    var framebuffer: Framebuffer
    var extent: Extent2D

    /** The active framebuffer belongs to the window's render pass. */
    predicate Valid()
      reads this
    {
      framebuffer.renderPass == renderPass
    }

    constructor (renderPass: RenderPass, framebuffer: Framebuffer, extent: Extent2D)
      requires framebuffer.renderPass == renderPass
      ensures this.renderPass == renderPass && this.framebuffer == framebuffer && this.extent == extent
      ensures Valid()
    {
      this.renderPass := renderPass;
      this.framebuffer := framebuffer;
      this.extent := extent;
    }
  }

  /** The resize callback; how it rescales viewports, scissors and clears is its own policy. */
  class WindowResizeHandler { }

  /**
   The render area and clear values the resize handler leaves in the node
   when it runs. The handler's policy is outside this model, so its answer
   is an input of recording.
   */
  datatype ResizeUpdate = ResizeUpdate(renderArea: Rect2D, clearValues: seq<ClearValue>)

  /** A child of the group, identified only; what a child records is its own business. */
  type ChildId = nat

  /** What recording leaves in the command buffer, in order. */
  datatype Event =
    | ResizeHandled(handler: WindowResizeHandler, extent: Extent2D)
    | BeginRenderPass(renderPass: RenderPass, framebuffer: Framebuffer, renderArea: Rect2D,
                      clearValues: seq<ClearValue>, contents: SubpassContents)
    | VisitChild(child: ChildId)
    | EndRenderPass

  /** The record traversal, reduced to the events recorded so far. */
  class RecordTraversal {
    var events: seq<Event>

    constructor ()
      ensures events == []
    {
      events := [];
    }
  }

  /** Everything one frame's recording of a node depends on, with the target already resolved. */
  datatype FrameState = FrameState(
    renderPass: RenderPass,
    framebuffer: Framebuffer,
    extent: Extent2D,
    renderArea: Rect2D,
    clearValues: seq<ClearValue>,
    contents: SubpassContents,
    handler: WindowResizeHandler?,
    children: seq<ChildId>,
    previousExtent: Extent2D)

  /** What invoking the resize handler records: nothing when there is no handler. */
  function ResizeEvents(handler: WindowResizeHandler?, extent: Extent2D): seq<Event>
  {
    if handler == null then [] else [ResizeHandled(handler, extent)]
  }

  /** The standard group traversal: one visit per child, in child order. */
  function ChildVisits(children: seq<ChildId>): (events: seq<Event>)
    ensures |events| == |children|
    ensures forall i :: 0 <= i < |children| ==> events[i] == VisitChild(children[i])
  {
    if children == [] then [] else [VisitChild(children[0])] + ChildVisits(children[1..])
  }

  /** The handler runs in a frame when the extent changed and a handler is set. */
  predicate HandlerRuns(s: FrameState)
  {
    s.extent != s.previousExtent && s.handler != null
  }

  /**
   The node's state after recording a frame in state `s`: the extent is
   remembered and, when the handler ran, its render area and clear values
   are in place.
   */
  function AfterFrame(s: FrameState, update: ResizeUpdate): FrameState
  {
    if HandlerRuns(s) then s.(renderArea := update.renderArea, clearValues := update.clearValues, previousExtent := s.extent)
    else s.(previousExtent := s.extent)
  }

  /** The begin-render-pass of a frame, with the settings in place once the handler has run. */
  function BeginEvent(s: FrameState, update: ResizeUpdate): Event
  {
    var after := AfterFrame(s, update);
    BeginRenderPass(s.renderPass, s.framebuffer, after.renderArea, after.clearValues, s.contents)
  }

  /** The events a frame records before its render pass: the handler's, when the extent changed. */
  function FrameResize(s: FrameState): seq<Event>
  {
    if s.extent != s.previousExtent then ResizeEvents(s.handler, s.extent) else []
  }

  /** The render pass a frame records: begin, one visit per child, end. */
  function FramePass(s: FrameState, update: ResizeUpdate): seq<Event>
  {
    [BeginEvent(s, update)] + ChildVisits(s.children) + [EndRenderPass]
  }

  /** The events one recording of a node in state `s` appends. */
  function FrameEvents(s: FrameState, update: ResizeUpdate): seq<Event>
  {
    FrameResize(s) + FramePass(s, update)
  }

  /** The number of events in `events` that satisfy `kind`. */
  function Count(events: seq<Event>, kind: Event -> bool): nat
  {
    if events == [] then 0 else (if kind(events[0]) then 1 else 0) + Count(events[1..], kind)
  }

  predicate IsResize(e: Event) { e.ResizeHandled? }
  predicate IsBegin(e: Event) { e.BeginRenderPass? }
  predicate IsEnd(e: Event) { e.EndRenderPass? }

  class RenderGraph {
    /** The group's children, in insertion order. */
    var children: seq<ChildId>
    var framebuffer: Framebuffer?
    var window: Window?
    var renderArea: Rect2D
    var clearValues: seq<ClearValue>
    var contents: SubpassContents
    var windowResizeHandler: WindowResizeHandler?
    /** The target extent at the previous frame. */
    var previousExtent: Extent2D

    constructor ()
      ensures children == [] && framebuffer == null && window == null && clearValues == []
      ensures contents == Inline
      ensures windowResizeHandler == null
      ensures previousExtent == INVALID_EXTENT
    {
      children := [];
      framebuffer := null;
      window := null;
      renderArea := Rect2D(Offset2D(0, 0), Extent2D(0, 0));
      clearValues := [];
      contents := Inline;
      windowResizeHandler := null;
      previousExtent := INVALID_EXTENT;
    }

    /** Either the framebuffer or a (well-formed) window must be assigned before recording. */
    predicate HasTarget()
      reads this`framebuffer, this`window, window
    {
      framebuffer != null || (window != null && window.Valid())
    }

    /** The render pass to begin: the framebuffer's when one is set, else the window's. */
    function GetRenderPass(): (renderPass: RenderPass)
      reads this`framebuffer, this`window, window
      requires HasTarget()
      ensures framebuffer != null ==> renderPass == framebuffer.renderPass
      ensures framebuffer == null ==> renderPass == window.renderPass
    {
      if framebuffer != null then framebuffer.renderPass else window.renderPass
    }

    /**
     The framebuffer to render into: the assigned one, else the window's
     active one; either way it was made for the render pass that is begun.
     */
    function ActiveFramebuffer(): (target: Framebuffer)
      reads this`framebuffer, this`window, window
      requires HasTarget()
      ensures framebuffer != null ==> target == framebuffer
      ensures framebuffer == null ==> target == window.framebuffer
      ensures target.renderPass == GetRenderPass()
    {
      if framebuffer != null then framebuffer else window.framebuffer
    }

    /** The extent of the framebuffer when one is set, else of the window. */
    function GetExtent(): (extent: Extent2D)
      reads this`framebuffer, this`window, window
      requires HasTarget()
      ensures framebuffer != null ==> extent == framebuffer.extent
      ensures framebuffer == null ==> extent == window.extent
    {
      if framebuffer != null then framebuffer.extent else window.extent
    }

    /** The node's state as one frame's recording sees it. */
    function State(): FrameState
      reads this, window
      requires HasTarget()
    {
      FrameState(GetRenderPass(), ActiveFramebuffer(), GetExtent(), renderArea, clearValues,
                 contents, windowResizeHandler, children, previousExtent)
    }

    /**
     Invoke the resize handler, if there is one, for the current extent; the
     handler leaves `update`'s render area and clear values in the node.
     */
    method Resized(traversal: RecordTraversal, update: ResizeUpdate)
      requires HasTarget()
      modifies this`renderArea, this`clearValues, traversal
      ensures traversal.events == old(traversal.events) + ResizeEvents(windowResizeHandler, GetExtent())
      ensures windowResizeHandler != null ==> renderArea == update.renderArea && clearValues == update.clearValues
      ensures windowResizeHandler == null ==> renderArea == old(renderArea) && clearValues == old(clearValues)
    {
      if windowResizeHandler != null {
        traversal.events := traversal.events + [ResizeHandled(windowResizeHandler, GetExtent())];
        renderArea := update.renderArea;
        clearValues := update.clearValues;
      }
    }

    /**
     Record the node: hand a changed extent to the resize handler and remember
     it, then begin the render pass, traverse the children and end the pass.
     */
    method Accept(traversal: RecordTraversal, update: ResizeUpdate)
      requires HasTarget()
      modifies this`previousExtent, this`renderArea, this`clearValues, traversal
      ensures framebuffer == old(framebuffer) && window == old(window)
      ensures previousExtent == old(GetExtent())
      ensures State() == AfterFrame(old(State()), update)
      ensures traversal.events == old(traversal.events) + FrameEvents(old(State()), update)
    {
      ghost var s := State();
      ghost var before := traversal.events;
      // The handler never changes the target, so it is resolved once, before it runs.
      var renderPass, target, extent := GetRenderPass(), ActiveFramebuffer(), GetExtent();
      if previousExtent != extent {
        Resized(traversal, update);
        previousExtent := extent;
      }
      assert traversal.events == before + FrameResize(s);
      var pass := [BeginRenderPass(renderPass, target, renderArea, clearValues, contents)]
        + ChildVisits(children) + [EndRenderPass];
      assert pass == FramePass(s, update);
      AppendAssociates(before, FrameResize(s), pass);
      traversal.events := traversal.events + pass;
    }
  }

  /** Appending to a log in two steps is appending the two parts at once. */
  lemma AppendAssociates(a: seq<Event>, b: seq<Event>, c: seq<Event>)
    ensures (a + b) + c == a + (b + c)
  {
  }

  lemma {:induction false} CountAppend(a: seq<Event>, b: seq<Event>, kind: Event -> bool)
    ensures Count(a + b, kind) == Count(a, kind) + Count(b, kind)
    decreases |a|
  {
    if a == [] {
      assert a + b == b;
    } else {
      assert (a + b)[0] == a[0];
      assert (a + b)[1..] == a[1..] + b;
      CountAppend(a[1..], b, kind);
    }
  }

  lemma {:induction false} ChildVisitsAreOnlyVisits(children: seq<ChildId>, kind: Event -> bool)
    requires forall c :: kind(VisitChild(c)) == false
    ensures Count(ChildVisits(children), kind) == 0
    decreases |children|
  {
    if children != [] {
      ChildVisitsAreOnlyVisits(children[1..], kind);
    }
  }

  /** The counts of one kind of event over a frame, one part at a time. */
  lemma FrameCount(s: FrameState, update: ResizeUpdate, kind: Event -> bool)
    requires forall c :: kind(VisitChild(c)) == false
    ensures Count(FrameEvents(s, update), kind)
        == Count(FrameResize(s), kind) + Count([BeginEvent(s, update)], kind) + Count([EndRenderPass], kind)
  {
    var begin := [BeginEvent(s, update)];
    var visits := ChildVisits(s.children);
    CountAppend(FrameResize(s), FramePass(s, update), kind);
    CountAppend(begin + visits, [EndRenderPass], kind);
    CountAppend(begin, visits, kind);
    ChildVisitsAreOnlyVisits(s.children, kind);
  }

  /**
   The resize handler runs at most once per frame, and exactly when the
   extent differs from the previous frame's and a handler is set; when it
   runs it is the first event and sees the new extent.
   */
  lemma ResizeHandledIffExtentChanged(s: FrameState, update: ResizeUpdate)
    ensures Count(FrameEvents(s, update), IsResize) == if s.extent != s.previousExtent && s.handler != null then 1 else 0
    ensures s.extent != s.previousExtent && s.handler != null
        ==> FrameEvents(s, update)[0] == ResizeHandled(s.handler, s.extent)
  {
    FrameCount(s, update, IsResize);
  }

  /**
   One frame records one render pass: a begin carrying the node's render
   pass, framebuffer and subpass contents, with the render area and clear
   values (in order) the resize handler left when it ran and the node's own
   otherwise, then a visit to every child in order, then the end.
   */
  lemma RenderPassFrameLayout(s: FrameState, update: ResizeUpdate)
    ensures var events := FrameEvents(s, update);
      var k := |events| - |s.children| - 2;
      && 0 <= k <= 1
      && events[k] == BeginRenderPass(s.renderPass, s.framebuffer,
           if HandlerRuns(s) then update.renderArea else s.renderArea,
           if HandlerRuns(s) then update.clearValues else s.clearValues,
           s.contents)
      && (forall i :: 0 <= i < |s.children| ==> events[k + 1 + i] == VisitChild(s.children[i]))
      && events[|events| - 1] == EndRenderPass
  {
  }

  /** What the handler would leave in the node matters only in a frame where it runs. */
  lemma UpdateMattersOnlyWhenHandlerRuns(s: FrameState, update: ResizeUpdate, other: ResizeUpdate)
    requires !HandlerRuns(s)
    ensures FrameEvents(s, update) == FrameEvents(s, other)
    ensures AfterFrame(s, update) == AfterFrame(s, other)
  {
  }

  /** A frame begins exactly one render pass and ends exactly one. */
  lemma OneRenderPassPerFrame(s: FrameState, update: ResizeUpdate)
    ensures Count(FrameEvents(s, update), IsBegin) == 1
    ensures Count(FrameEvents(s, update), IsEnd) == 1
  {
    FrameCount(s, update, IsBegin);
    FrameCount(s, update, IsEnd);
  }

  /**
   The frame after a recording sees `previousExtent` equal to the extent just
   recorded; with an unchanged target extent it does not invoke the handler,
   whatever the handler would do, so two consecutive frames invoke it at most
   once.
   */
  lemma ConsecutiveFramesResizeAtMostOnce(s: FrameState, update: ResizeUpdate, nextUpdate: ResizeUpdate)
    ensures var next := AfterFrame(s, update);
      && Count(FrameEvents(next, nextUpdate), IsResize) == 0
      && Count(FrameEvents(s, update) + FrameEvents(next, nextUpdate), IsResize) <= 1
  {
    var next := AfterFrame(s, update);
    ResizeHandledIffExtentChanged(s, update);
    ResizeHandledIffExtentChanged(next, nextUpdate);
    CountAppend(FrameEvents(s, update), FrameEvents(next, nextUpdate), IsResize);
  }

  /**
   A node fresh from construction still holds the sentinel extent, so its
   first frame with a handler and any real extent starts with the handler.
   */
  lemma FirstFrameIsAResize(s: FrameState, update: ResizeUpdate)
    requires s.previousExtent == INVALID_EXTENT && s.extent != INVALID_EXTENT
    requires s.handler != null
    ensures FrameEvents(s, update)[0] == ResizeHandled(s.handler, s.extent)
    ensures Count(FrameEvents(s, update), IsResize) == 1
  {
    ResizeHandledIffExtentChanged(s, update);
  }

  /**
   Three frames of a node with a resize handler: at a new extent, again at
   that extent, then after the target changed to `grown`. The handler is
   invoked in the first and third frame only, each time first and with the
   extent of that frame, and the third frame's render pass begins with the
   render area and clear values the handler chose.
   */
  lemma {:induction false} ResizeSteadyResize(s1: FrameState, first: ResizeUpdate, second: ResizeUpdate,
                                              third: ResizeUpdate, grown: Extent2D)
    requires s1.handler != null && s1.extent != s1.previousExtent && grown != s1.extent
    ensures var s2 := AfterFrame(s1, first);
      var s3 := AfterFrame(s2, second).(extent := grown);
      var f1, f2, f3 := FrameEvents(s1, first), FrameEvents(s2, second), FrameEvents(s3, third);
      && Count(f1 + f2 + f3, IsResize) == 2
      && f1[0] == ResizeHandled(s1.handler, s1.extent)
      && Count(f2, IsResize) == 0
      && f3[0] == ResizeHandled(s1.handler, grown)
      && f3[1] == BeginRenderPass(s1.renderPass, s1.framebuffer, third.renderArea, third.clearValues, s1.contents)
  {
    var s2 := AfterFrame(s1, first);
    var s3 := AfterFrame(s2, second).(extent := grown);
    var f1, f2, f3 := FrameEvents(s1, first), FrameEvents(s2, second), FrameEvents(s3, third);
    ResizeHandledIffExtentChanged(s1, first);
    ResizeHandledIffExtentChanged(s2, second);
    ResizeHandledIffExtentChanged(s3, third);
    RenderPassFrameLayout(s3, third);
    CountAppend(f1, f2, IsResize);
    CountAppend(f1 + f2, f3, IsResize);
  }

  /**
   A window-bound node with a resize handler, recorded three times: at
   800x600, again at 800x600, then after the window grows to 1920x1080. The
   handler is invoked on the first and the third frame only, and the third
   frame begins its render pass with the render area the handler chose.
   */
  method ResizeScenario()
  {
    var windowPass := new RenderPass;
    var swapchainImage := new Framebuffer(windowPass, Extent2D(800, 600));
    var window := new Window(windowPass, swapchainImage, Extent2D(800, 600));
    var handler := new WindowResizeHandler;
    var node := new RenderGraph();
    node.window := window;
    node.windowResizeHandler := handler;
    node.clearValues := [ClearColor(0.2, 0.2, 0.4, 1.0), ClearDepthStencil(1.0, 0)];
    var traversal := new RecordTraversal();
    var small := ResizeUpdate(Rect2D(Offset2D(0, 0), Extent2D(800, 600)), node.clearValues);
    var large := ResizeUpdate(Rect2D(Offset2D(0, 0), Extent2D(1920, 1080)), node.clearValues);

    ghost var s1 := node.State();
    assert s1.handler == handler && s1.extent == Extent2D(800, 600) && s1.previousExtent == INVALID_EXTENT;
    node.Accept(traversal, small);
    assert traversal.events == FrameEvents(s1, small);
    node.Accept(traversal, large);
    ghost var settled := node.State();
    assert node.framebuffer == null && node.window == window;
    window.extent := Extent2D(1920, 1080);
    assert node.State() == settled.(extent := Extent2D(1920, 1080));
    node.Accept(traversal, large);

    ResizeSteadyResize(s1, small, large, large, Extent2D(1920, 1080));
    assert Count(traversal.events, IsResize) == 2;
  }

  /** A node given both a window and a framebuffer renders into the framebuffer. */
  method FramebufferPrecedenceScenario()
  {
    var windowPass := new RenderPass;
    var swapchainImage := new Framebuffer(windowPass, Extent2D(800, 600));
    var window := new Window(windowPass, swapchainImage, Extent2D(800, 600));
    var offscreenPass := new RenderPass;
    var offscreen := new Framebuffer(offscreenPass, Extent2D(256, 256));
    var node := new RenderGraph();
    node.window := window;
    node.framebuffer := offscreen;
    var traversal := new RecordTraversal();
    var update := ResizeUpdate(Rect2D(Offset2D(0, 0), Extent2D(256, 256)), []);

    ghost var s := node.State();
    assert s.renderPass == offscreenPass && s.framebuffer == offscreen && s.extent == Extent2D(256, 256);
    node.Accept(traversal, update);
    RenderPassFrameLayout(s, update);
    assert !HandlerRuns(s);
    assert traversal.events[0] == BeginRenderPass(offscreenPass, offscreen, node.renderArea, [], Inline);
  }
}
