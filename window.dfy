/**
 * src/lib/Window.c: the window record, the aspect-preserving viewport and
 * the event and callback logic of the render loop.
 *
 * SDL_PollEvent is foreign: the loop's input is the list of events pending
 * at each iteration. The physics and render callbacks are recorded, in call
 * order, in the loop's result.
 */
module Window {
  import opened Base
  import opened Vulkan

  datatype Viewport = Viewport(x: nat, y: nat, width: nat, height: nat)

  /**
   * The rectangle of Window__KeepAspectRatio for a w x h window and aspect
   * ratio a: each side is the smaller of the window side and the side the
   * aspect ratio derives from the other window side, truncated to an
   * integer, and the rectangle is centred with integer division.
   */
  function ComputeViewport(w: u32, h: u32, a: Ratio): (r: Viewport)
    ensures r.width <= w && r.height <= h
    ensures r.width as real <= h as real * a && r.height as real <= w as real / a
    ensures r.width == w || r.height == h
    ensures w as real < h as real * a ==> r.width == w
    ensures h as real < w as real / a ==> r.height == h
    ensures r.width < w ==> h as real * a < (r.width + 1) as real
    ensures r.height < h ==> w as real / a < (r.height + 1) as real
    ensures r.x + r.width <= w && r.y + r.height <= h
    ensures w - r.width - 1 <= 2 * r.x <= w - r.width
    ensures h - r.height - 1 <= 2 * r.y <= h - r.height
  {
    var ha := h as real * a;
    var wa := w as real / a;
    AspectSides(w, h, a);
    var tw := MinReal(w as real, ha).Floor;
    var th := MinReal(h as real, wa).Floor;
    SideWithin(w, ha);
    SideWithin(h, wa);
    Viewport((w - tw) / 2, (h - th) / 2, tw, th)
  }

  /** The aspect sides are non-negative, and when the window is no wider than its height allows, it is at least as high as its width allows. */
  lemma AspectSides(w: nat, h: nat, a: Ratio)
    ensures 0.0 <= h as real * a && 0.0 <= w as real / a
    ensures !(w as real < h as real * a) ==> h as real <= w as real / a
  {
    if !(w as real < h as real * a) {
      assert (h as real * a) / a <= w as real / a;
    }
  }

  /** Truncating the smaller of a window side `n` and an aspect side `limit` gives the largest integer within both. */
  lemma SideWithin(n: nat, limit: real)
    requires 0.0 <= limit
    ensures var t := MinReal(n as real, limit).Floor;
            && 0 <= t <= n && t as real <= limit
            && (t < n ==> limit < (t + 1) as real)
            && (n as real < limit ==> t == n)
  {
  }

  /** With a square aspect, an 800x600 window gets a 600x600 viewport at (100, 0). */
  lemma ViewportLandscape()
    ensures ComputeViewport(800, 600, 1.0) == Viewport(100, 0, 600, 600)
  {
  }

  /** With a square aspect, an 800x800 window is filled by the viewport. */
  lemma ViewportSquare()
    ensures ComputeViewport(800, 800, 1.0) == Viewport(0, 0, 800, 800)
  {
  }

  /**
   * The driver-state update of Window__KeepAspectRatio: window and buffer
   * size become exactly (w, h), the viewport is recomputed with the stored
   * aspect ratio, and the framebuffer is marked resized.
   */
  function Resize(v: ViewState, w: u32, h: u32): (r: ViewState)
    ensures r.windowWidth == w && r.windowHeight == h && r.bufferWidth == w && r.bufferHeight == h
    ensures r.framebufferResized
    ensures Viewport(r.viewportX, r.viewportY, r.viewportWidth, r.viewportHeight) == ComputeViewport(w, h, v.aspectRatio)
    ensures r.aspectRatio == v.aspectRatio && r.minimized == v.minimized && r.maximized == v.maximized
  {
    var vp := ComputeViewport(w, h, v.aspectRatio);
    v.(windowWidth := w, windowHeight := h,
       viewportX := vp.x, viewportY := vp.y, viewportWidth := vp.width, viewportHeight := vp.height,
       bufferWidth := w, bufferHeight := h, framebufferResized := true)
  }

  datatype WindowEventKind = Minimized | Restored | Maximized | SizeChanged | OtherWindowEvent

  /** An SDL_Event as the loop distinguishes it; data1 and data2 are Sint32 in SDL. */
  datatype Event = WindowEvent(kind: WindowEventKind, data1: int, data2: int) | QuitEvent | OtherEvent

  datatype Callback = Physics(deltaTime: real) | Render(deltaTime: real)

  /** The loop's state: the window's quit flag and the driver's window fields. */
  datatype LoopState = LoopState(quit: bool, view: ViewState)

  /** The switch at Window.c:137-164 for one event. */
  function HandleEvent(s: LoopState, e: Event): (r: LoopState)
    ensures r.quit <==> s.quit || e == QuitEvent
    ensures r.view.aspectRatio == s.view.aspectRatio
    ensures !IsSizeChanged(e) ==> Geometry(r.view) == Geometry(s.view)
  {
    match e
    case WindowEvent(kind, data1, data2) =>
      (match kind
       case Minimized => s.(view := s.view.(minimized := true))
       case Restored => s.(view := s.view.(minimized := false, maximized := false))
       case Maximized => s.(view := s.view.(maximized := true))
       case SizeChanged => s.(view := Resize(s.view.(minimized := false), ToU32(data1), ToU32(data2)))
       case OtherWindowEvent => s)
    case QuitEvent => s.(quit := true)
    case OtherEvent => s
  }

  /** The state after the inner loop has drained `events`. */
  function Drain(s: LoopState, events: seq<Event>): (r: LoopState)
    ensures r.quit <==> s.quit || QuitEvent in events
    decreases |events|
  {
    if events == [] then s
    else
      assert events == events[..|events| - 1] + [events[|events| - 1]];
      HandleEvent(Drain(s, events[..|events| - 1]), events[|events| - 1])
  }

  /** One iteration of the outer loop: drain the events, then the callbacks unless minimized. */
  function Iteration(s: LoopState, events: seq<Event>): (r: (LoopState, seq<Callback>))
    ensures r.0 == Drain(s, events)
    ensures r.1 == [] <==> r.0.view.minimized
    ensures r.1 != [] ==> r.1 == [Physics(0.0), Render(0.0)]
  {
    var s' := Drain(s, events);
    (s', if !s'.view.minimized then [Physics(0.0), Render(0.0)] else [])
  }

  /** The loop `while (!quit)` over the iterations whose pending events are `frames`. */
  function Run(s: LoopState, frames: seq<seq<Event>>): (r: (LoopState, seq<Callback>))
    ensures s.quit ==> r == (s, [])
    ensures |r.1| <= 2 * |frames|
    decreases |frames|
  {
    if s.quit || frames == [] then (s, [])
    else
      var (s1, c1) := Iteration(s, frames[0]);
      var (s2, c2) := Run(s1, frames[1..]);
      (s2, c1 + c2)
  }

  /** MINIMIZED sets m_minimized; RESTORED and SIZE_CHANGED clear it. */
  predicate TogglesMinimized(e: Event) {
    e.WindowEvent? && (e.kind == Minimized || e.kind == Restored || e.kind == SizeChanged)
  }

  /** MAXIMIZED sets m_maximized; RESTORED clears it. */
  predicate TogglesMaximized(e: Event) {
    e.WindowEvent? && (e.kind == Maximized || e.kind == Restored)
  }

  /** Draining `a + b` is draining `a`, then `b`. */
  lemma {:induction false} DrainAppend(s: LoopState, a: seq<Event>, b: seq<Event>)
    ensures Drain(s, a + b) == Drain(Drain(s, a), b)
    decreases |b|
  {
    if b == [] {
      assert a + b == a;
    } else {
      var b' := b[..|b| - 1];
      DrainAppend(s, a, b');
      assert (a + b)[..|a + b| - 1] == a + b';
    }
  }

  /** Events that do not toggle m_minimized leave it as it was. */
  lemma {:induction false} DrainKeepsMinimized(s: LoopState, events: seq<Event>)
    requires forall k :: 0 <= k < |events| ==> !TogglesMinimized(events[k])
    ensures Drain(s, events).view.minimized == s.view.minimized
    decreases |events|
  {
    if events != [] {
      DrainKeepsMinimized(s, events[..|events| - 1]);
    }
  }

  /** Events that do not toggle m_maximized leave it as it was. */
  lemma {:induction false} DrainKeepsMaximized(s: LoopState, events: seq<Event>)
    requires forall k :: 0 <= k < |events| ==> !TogglesMaximized(events[k])
    ensures Drain(s, events).view.maximized == s.view.maximized
    decreases |events|
  {
    if events != [] {
      DrainKeepsMaximized(s, events[..|events| - 1]);
    }
  }

  /**
   * After draining, m_minimized is decided by the last MINIMIZED, RESTORED
   * or SIZE_CHANGED event: set by the first kind, cleared by the other two.
   */
  lemma DrainMinimized(s: LoopState, events: seq<Event>, k: nat)
    requires k < |events| && TogglesMinimized(events[k])
    requires forall j :: k < j < |events| ==> !TogglesMinimized(events[j])
    ensures Drain(s, events).view.minimized == (events[k].kind == Minimized)
  {
    var a, b := events[..k + 1], events[k + 1..];
    assert events == a + b;
    DrainAppend(s, a, b);
    assert a[..k] == events[..k];
    DrainKeepsMinimized(Drain(s, a), b);
  }

  /** After draining, m_maximized is decided by the last MAXIMIZED or RESTORED event. */
  lemma DrainMaximized(s: LoopState, events: seq<Event>, k: nat)
    requires k < |events| && TogglesMaximized(events[k])
    requires forall j :: k < j < |events| ==> !TogglesMaximized(events[j])
    ensures Drain(s, events).view.maximized == (events[k].kind == Maximized)
  {
    var a, b := events[..k + 1], events[k + 1..];
    assert events == a + b;
    DrainAppend(s, a, b);
    assert a[..k] == events[..k];
    DrainKeepsMaximized(Drain(s, a), b);
  }

  predicate IsSizeChanged(e: Event) {
    e.WindowEvent? && e.kind == SizeChanged
  }

  /** The driver fields other than the two window-state flags. */
  function Geometry(v: ViewState): ViewState {
    v.(minimized := false, maximized := false)
  }

  /** Without a SIZE_CHANGED event, draining changes none of the size, viewport and resize fields. */
  lemma {:induction false} DrainKeepsGeometry(s: LoopState, events: seq<Event>)
    requires forall k :: 0 <= k < |events| ==> !IsSizeChanged(events[k])
    ensures Geometry(Drain(s, events).view) == Geometry(s.view)
    decreases |events|
  {
    if events != [] {
      DrainKeepsGeometry(s, events[..|events| - 1]);
    }
  }

  /**
   * After draining, the window size, buffer size and viewport come from the
   * last SIZE_CHANGED event's (data1, data2), converted to u32, with the
   * aspect ratio the drain started with, and the framebuffer is marked resized.
   */
  lemma DrainSizeChanged(s: LoopState, events: seq<Event>, k: nat)
    requires k < |events| && IsSizeChanged(events[k])
    requires forall j :: k < j < |events| ==> !IsSizeChanged(events[j])
    ensures var v, w, h := Drain(s, events).view, ToU32(events[k].data1), ToU32(events[k].data2);
            && v.windowWidth == w && v.windowHeight == h && v.bufferWidth == w && v.bufferHeight == h
            && Viewport(v.viewportX, v.viewportY, v.viewportWidth, v.viewportHeight) == ComputeViewport(w, h, s.view.aspectRatio)
            && v.framebufferResized && v.aspectRatio == s.view.aspectRatio
  {
    var a, b := events[..k + 1], events[k + 1..];
    assert events == a + b;
    DrainAppend(s, a, b);
    assert a[..k] == events[..k];
    DrainKeepsAspect(s, events[..k]);
    DrainKeepsGeometry(Drain(s, a), b);
  }

  /** No event changes the aspect ratio. */
  lemma {:induction false} DrainKeepsAspect(s: LoopState, events: seq<Event>)
    ensures Drain(s, events).view.aspectRatio == s.view.aspectRatio
    decreases |events|
  {
    if events != [] {
      DrainKeepsAspect(s, events[..|events| - 1]);
    }
  }

  /**
   * A QUIT event ends the loop only after its iteration: the events queued
   * behind it are still drained and that iteration's callbacks still run,
   * and no later iteration happens.
   */
  lemma QuitEndsLoopAfterIteration(s: LoopState, frames: seq<seq<Event>>)
    requires !s.quit && frames != [] && QuitEvent in frames[0]
    ensures Run(s, frames) == Iteration(s, frames[0])
  {
    var (s1, c1) := Iteration(s, frames[0]);
    assert Run(s1, frames[1..]) == (s1, []);
    assert c1 + [] == c1;
  }

  /** Draining events none of which is RESTORED or SIZE_CHANGED keeps a minimized window minimized. */
  lemma {:induction false} DrainStaysMinimized(s: LoopState, events: seq<Event>)
    requires s.view.minimized
    requires forall k :: 0 <= k < |events| ==> !(events[k].WindowEvent? && events[k].kind in {Restored, SizeChanged})
    ensures Drain(s, events).view.minimized
    decreases |events|
  {
    if events != [] {
      DrainStaysMinimized(s, events[..|events| - 1]);
    }
  }

  /** While nothing restores the window or changes its size, a minimized window runs no callback. */
  lemma {:induction false} MinimizedRunsNoCallbacks(s: LoopState, frames: seq<seq<Event>>)
    requires s.view.minimized
    requires forall i, k :: 0 <= i < |frames| && 0 <= k < |frames[i]| ==>
               !(frames[i][k].WindowEvent? && frames[i][k].kind in {Restored, SizeChanged})
    ensures Run(s, frames).1 == []
    ensures Run(s, frames).0.view.minimized
    decreases |frames|
  {
    if !s.quit && frames != [] {
      DrainStaysMinimized(s, frames[0]);
      var rest := frames[1..];
      assert forall i, k :: 0 <= i < |rest| && 0 <= k < |rest[i]| ==> rest[i][k] == frames[i + 1][k];
      MinimizedRunsNoCallbacks(Drain(s, frames[0]), rest);
    }
  }

  /**
   * The callbacks come in pairs, physics then render, each with the loop's
   * deltaTime, which stays 0.
   */
  lemma {:induction false} CallbacksPaired(s: LoopState, frames: seq<seq<Event>>)
    ensures |Run(s, frames).1| % 2 == 0
    ensures forall k :: 0 <= k < |Run(s, frames).1| ==>
              Run(s, frames).1[k] == if k % 2 == 0 then Physics(0.0) else Render(0.0)
    decreases |frames|
  {
    if !s.quit && frames != [] {
      var (s1, c1) := Iteration(s, frames[0]);
      CallbacksPaired(s1, frames[1..]);
      var c2 := Run(s1, frames[1..]).1;
      assert Run(s, frames).1 == c1 + c2;
      assert |c1| == 0 || |c1| == 2;
      assert forall k :: 0 <= k < |c2| ==> (c1 + c2)[|c1| + k] == c2[k];
    }
  }

  /** Window_t. */
  class AppWindow {
    var quit: bool
    var window: Option<Handle>
    var title: string
    var width: u16
    var height: u16
    const vulkan: Context

    /** Window__New: not quitting, no SDL window yet, the arguments stored unchanged. */
    constructor New(title: string, width: u16, height: u16, vulkan: Context)
      ensures !quit && window == None
      ensures this.title == title && this.width == width && this.height == height && this.vulkan == vulkan
    {
      this.quit := false;
      this.window := None;
      this.width := width;
      this.height := height;
      this.title := title;
      this.vulkan := vulkan;
    }

    /** Window__KeepAspectRatio: writes its results into the driver state. */
    method KeepAspectRatio(width: u32, height: u32)
      modifies vulkan`view
      ensures vulkan.view == Resize(old(vulkan.view), width, height)
    {
      var vp := ComputeViewport(width, height, vulkan.view.aspectRatio);
      vulkan.view := vulkan.view.(windowWidth := width, windowHeight := height,
                                  viewportX := vp.x, viewportY := vp.y,
                                  viewportWidth := vp.width, viewportHeight := vp.height,
                                  bufferWidth := width, bufferHeight := height,
                                  framebufferResized := true);
    }

    /** The switch over one polled event (Window.c:137-164). */
    method Dispatch(e: Event)
      modifies this`quit, vulkan`view
      ensures LoopState(quit, vulkan.view) == HandleEvent(old(LoopState(quit, vulkan.view)), e)
    {
      match e {
        case WindowEvent(kind, data1, data2) =>
          match kind {
            case Minimized =>
              vulkan.view := vulkan.view.(minimized := true);
            case Restored =>
              vulkan.view := vulkan.view.(minimized := false, maximized := false);
            case Maximized =>
              vulkan.view := vulkan.view.(maximized := true);
            case SizeChanged =>
              vulkan.view := vulkan.view.(minimized := false);
              KeepAspectRatio(ToU32(data1), ToU32(data2));
            case OtherWindowEvent =>
          }
        case QuitEvent =>
          quit := true;
        case OtherEvent =>
      }
    }

    /** The inner `while (SDL_PollEvent(&e) > 0)` loop over the events pending in one iteration. */
    method PollEvents(events: seq<Event>)
      modifies this`quit, vulkan`view
      ensures LoopState(quit, vulkan.view) == Drain(old(LoopState(quit, vulkan.view)), events)
    {
      var j := 0;
      while j < |events|
        invariant 0 <= j <= |events|
        invariant LoopState(quit, vulkan.view) == Drain(old(LoopState(quit, vulkan.view)), events[..j])
      {
        Dispatch(events[j]);
        assert events[..j + 1][..j] == events[..j];
        j := j + 1;
      }
      assert events[..j] == events;
    }

    /**
     * The event and callback logic of Window__RenderLoop over the iterations
     * whose pending events are `pending`; returns the callbacks in call order.
     */
    method RenderLoop(pending: seq<seq<Event>>) returns (calls: seq<Callback>)
      modifies this`quit, vulkan`view
      ensures Run(LoopState(old(quit), old(vulkan.view)), pending) == (LoopState(quit, vulkan.view), calls)
    {
      var deltaTime := 0.0;
      calls := [];
      var i := 0;
      assert pending[0..] == pending;
      assert calls + Run(LoopState(quit, vulkan.view), pending).1 == Run(LoopState(quit, vulkan.view), pending).1;
      while !quit && i < |pending|
        invariant 0 <= i <= |pending|
        invariant var rest := Run(LoopState(quit, vulkan.view), pending[i..]);
                  Run(LoopState(old(quit), old(vulkan.view)), pending) == (rest.0, calls + rest.1)
        decreases |pending| - i
      {
        ghost var start := LoopState(quit, vulkan.view);
        ghost var callsBefore := calls;
        assert pending[i..][0] == pending[i] && pending[i..][1..] == pending[i + 1..];
        PollEvents(pending[i]);
        if !vulkan.view.minimized {
          calls := calls + [Physics(deltaTime)];
          calls := calls + [Render(deltaTime)];
        }
        assert calls == callsBefore + Iteration(start, pending[i]).1;
        ghost var later := Run(LoopState(quit, vulkan.view), pending[i + 1..]);
        assert Run(start, pending[i..]) == (later.0, Iteration(start, pending[i]).1 + later.1);
        assert callsBefore + (Iteration(start, pending[i]).1 + later.1) == calls + later.1;
        i := i + 1;
      }
      assert Run(LoopState(quit, vulkan.view), pending[i..]) == (LoopState(quit, vulkan.view), []);
      assert calls + [] == calls;
    }
  }
}
