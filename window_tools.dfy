/** The window layer (WindowTools): window centring, resizing the swap chain when the
    client area changes, toggling borderless fullscreen, and the key bindings of the
    window procedure. This code drives a set of context members (`g_*`) that the
    present DX12Context no longer declares; it is modelled against its own record,
    WindowState, which holds exactly those members. */
module WindowTools {
  import opened Failures
  import opened Barriers
  import opened Gpu
  import Graphics

  type Uint32 = n: nat | n < 0x1_0000_0000

  /** C++ `/` on int: the quotient truncated toward zero. It has the sign of `a`, and
      `q * b` is the multiple of `b` nearest to `a` on the side of zero, so the
      remainder `a - q * b` keeps the sign of `a` and stays below `b` in size. */
  function TruncDiv(a: int, b: int): (q: int)
    requires b > 0
    ensures 0 <= a ==> 0 <= q && q * b <= a < q * b + b
    ensures a < 0 ==> q <= 0 && q * b - b < a <= q * b
  {
    if a >= 0 then a / b else -((-a) / b)
  }

  /** Truncating division is the only quotient with those bounds. */
  lemma TruncDivIsUnique(a: int, b: int, q: int)
    requires b > 0
    requires 0 <= a ==> 0 <= q && q * b <= a < q * b + b
    requires a < 0 ==> q <= 0 && q * b - b < a <= q * b
    ensures q == TruncDiv(a, b)
  {
    var t := TruncDiv(a, b);
    MulGap(q, t, b);
    MulGap(t, q, b);
  }

  lemma {:induction false} MulAtLeastOne(k: nat, b: int)
    requires k >= 1 && b > 0
    ensures k * b >= b
    decreases k
  {
    if k > 1 {
      MulAtLeastOne(k - 1, b);
      assert k * b == (k - 1) * b + b;
    }
  }

  /** Two different multiples of a positive b are at least b apart. */
  lemma MulGap(x: int, y: int, b: int)
    requires b > 0
    ensures x < y ==> x * b + b <= y * b
  {
    if x < y {
      var k := y - x;
      assert y * b == x * b + k * b;
      MulAtLeastOne(k, b);
    }
  }

  /** The window's origin on one axis: centred on the screen, clamped to 0 when the
      window is larger than the screen. */
  function WindowOrigin(screen: int, window: int): (x: int)
    ensures x >= 0
    ensures window <= screen ==> x + window + x <= screen <= x + window + x + 1
    ensures screen < window + 2 ==> x == 0
  {
    if TruncDiv(screen - window, 2) > 0 then TruncDiv(screen - window, 2) else 0
  }

  /** A Win32 RECT. */
  datatype Rect = Rect(left: int, top: int, right: int, bottom: int)

  /** The position and size a SetWindowPos call gives the window. */
  datatype Placement = Placement(x: int, y: int, cx: int, cy: int)

  function RectPlacement(r: Rect): Placement {
    Placement(r.left, r.top, r.right - r.left, r.bottom - r.top)
  }

  /** createWindow's placement for a window whose adjusted rectangle is `windowRect`
      on a screen of the given size. */
  function CreateWindowPlacement(screenWidth: int, screenHeight: int, windowRect: Rect): (p: Placement)
    ensures p.cx == windowRect.right - windowRect.left && p.cy == windowRect.bottom - windowRect.top
    ensures p.x == WindowOrigin(screenWidth, p.cx) && p.y == WindowOrigin(screenHeight, p.cy)
  {
    var w := windowRect.right - windowRect.left;
    var h := windowRect.bottom - windowRect.top;
    Placement(WindowOrigin(screenWidth, w), WindowOrigin(screenHeight, h), w, h)
  }

  const WS_OVERLAPPED: bv32 := 0x0000_0000
  const WS_CAPTION: bv32 := 0x00C0_0000
  const WS_SYSMENU: bv32 := 0x0008_0000
  const WS_THICKFRAME: bv32 := 0x0004_0000
  const WS_MINIMIZEBOX: bv32 := 0x0002_0000
  const WS_MAXIMIZEBOX: bv32 := 0x0001_0000
  const WS_OVERLAPPEDWINDOW: bv32 :=
    WS_OVERLAPPED | WS_CAPTION | WS_SYSMENU | WS_THICKFRAME | WS_MINIMIZEBOX | WS_MAXIMIZEBOX

  /** The borderless style SetFullscreen switches to: the overlapped-window style with
      every decoration removed. */
  function BorderlessStyle(): (style: bv32)
    ensures style & WS_CAPTION == 0 && style & WS_THICKFRAME == 0 && style & WS_SYSMENU == 0
    ensures style & WS_MINIMIZEBOX == 0 && style & WS_MAXIMIZEBOX == 0
    ensures style == 0
  {
    WS_OVERLAPPEDWINDOW & !(WS_CAPTION | WS_SYSMENU | WS_THICKFRAME | WS_MINIMIZEBOX | WS_MAXIMIZEBOX)
  }

  /** ShowWindow's command and SetWindowPos's place in the z-order. */
  datatype ShowCommand = ShowNormal | ShowMaximized
  datatype ZOrder = Top | NoTopMost

  /** Virtual-key codes the window procedure handles. */
  const KeyV: nat := 0x56
  const VK_ESCAPE: nat := 0x1B
  const VK_RETURN: nat := 0x0D
  const VK_F11: nat := 0x7A

  /** The keys that toggle fullscreen: F11, or Enter with Alt held. */
  predicate TogglesFullscreen(key: nat, alt: bool) {
    key == VK_F11 || (key == VK_RETURN && alt)
  }

  /** The messages the window procedure distinguishes; `Size` carries the client
      rectangle GetClientRect reports, `KeyDown` whether Alt is held. */
  datatype Message =
    | Paint
    | KeyDown(key: nat, alt: bool)
    | SysKeyDown(key: nat, alt: bool)
    | SysChar
    | Size(clientRect: Rect)
    | Destroy
    | OtherMessage(code: nat)

  /** The conversion of an int to uint32 at the call Resize(width, height). */
  function ToUint32(x: int): (u: Uint32)
    ensures 0 <= x < 0x1_0000_0000 ==> u == x
    ensures -0x1_0000_0000 <= x < 0 ==> u == x + 0x1_0000_0000
  {
    x % 0x1_0000_0000
  }

  /** std::max(1u, n): a zero-sized swap chain buffer is not allowed. */
  function AtLeastOne(n: Uint32): (m: Uint32)
    ensures m >= 1 && m >= n && (n >= 1 ==> m == n) && (n == 0 ==> m == 1)
  {
    if n < 1 then 1 else n
  }

  /** The members of the context and the window the window code reads and writes. */
  class WindowState {
    const numFrames: nat
    const device: Device
    const swapChain: SwapChain
    const rtvHeap: DescriptorHeap
    const commandQueue: CommandQueue
    const backBuffers: array<Option<ResourceId>>
    const frameFenceValues: array<nat>
    var currentBackBufferIndex: nat
    var clientWidth: Uint32
    var clientHeight: Uint32
    var isInitialized: bool
    var vsync: bool
    var fullscreen: bool
    var quitPosted: bool
    /** The window rectangle saved on entering fullscreen. */
    var windowRect: Rect
    /** What the window manager was last told: style, position, z-order, show command. */
    var windowStyle: bv32
    var placement: Placement
    var zOrder: ZOrder
    var show: ShowCommand

    /** The frame slots and the swap chain agree; no slot records a fence value that
        was never signalled. */
    ghost predicate SlotsValid()
      reads this, swapChain, backBuffers, frameFenceValues, commandQueue
    {
      && numFrames == Graphics.BufferCount
      && swapChain.Valid() && swapChain.bufferCount == numFrames
      && backBuffers.Length == numFrames && frameFenceValues.Length == numFrames
      && currentBackBufferIndex < numFrames
      && (forall i :: 0 <= i < numFrames ==> frameFenceValues[i] <= commandQueue.fenceValue)
    }

    ghost predicate Valid()
      reads this, swapChain, backBuffers, frameFenceValues, commandQueue, commandQueue.fence, device
    {
      SlotsValid() && device.Valid() && commandQueue.Valid()
    }

    /** The initial values: a 1080 x 720 client area, windowed, vsync off, not
        initialized (the context members' defaults). */
    constructor (device: Device, swapChain: SwapChain, rtvHeap: DescriptorHeap,
                 commandQueue: CommandQueue, windowPlacement: Placement)
      requires device.Valid() && commandQueue.Valid()
      requires swapChain.Valid() && swapChain.bufferCount == Graphics.BufferCount
      ensures Valid() && clientWidth == 1080 && clientHeight == 720
      ensures !fullscreen && !vsync && !isInitialized && !quitPosted
      ensures windowStyle == WS_OVERLAPPEDWINDOW && placement == windowPlacement
      ensures this.swapChain == swapChain && this.commandQueue == commandQueue
      ensures fresh(backBuffers) && fresh(frameFenceValues)
    {
      numFrames := Graphics.BufferCount;
      this.device := device;
      this.swapChain := swapChain;
      this.rtvHeap := rtvHeap;
      this.commandQueue := commandQueue;
      backBuffers := new Option<ResourceId>[] [None, None, None];
      frameFenceValues := new nat[] [0, 0, 0];
      currentBackBufferIndex := swapChain.currentIndex;
      clientWidth := 1080;
      clientHeight := 720;
      isInitialized := false;
      vsync := false;
      fullscreen := false;
      quitPosted := false;
      windowStyle := WS_OVERLAPPEDWINDOW;
      placement := windowPlacement;
      windowRect := Rect(0, 0, 0, 0);
      zOrder := NoTopMost;
      show := ShowNormal;
    }

    /** The loop of Resize: drop every back-buffer reference and give every slot the
        fence value of the current slot. Only legal once the queue is idle. */
    method ReleaseBackBuffers()
      requires SlotsValid()
      requires commandQueue.fence.signalled <= commandQueue.fence.completed
      modifies backBuffers, frameFenceValues
      ensures SlotsValid()
      ensures forall i :: 0 <= i < numFrames ==> backBuffers[i] == None
      ensures forall i :: 0 <= i < numFrames ==>
                frameFenceValues[i] == old(frameFenceValues[currentBackBufferIndex])
    {
      ghost var v := frameFenceValues[currentBackBufferIndex];
      for i := 0 to numFrames
        invariant frameFenceValues[currentBackBufferIndex] == v
        invariant forall j :: 0 <= j < i ==> backBuffers[j] == None && frameFenceValues[j] == v
        invariant forall j :: i <= j < numFrames ==> frameFenceValues[j] == old(frameFenceValues[j])
      {
        ReleaseBackBuffer(backBuffers, i, commandQueue.fence);
        frameFenceValues[i] := frameFenceValues[currentBackBufferIndex];
      }
    }

    /** The GPU side of the window as it was: the frame slots, the queue and its fence,
        the swap chain with its log of presents, and the descriptor heap. */
    twostate predicate GpuKept()
      reads this, backBuffers, frameFenceValues, commandQueue, commandQueue.fence, swapChain, rtvHeap
    {
      && currentBackBufferIndex == old(currentBackBufferIndex)
      && backBuffers[..] == old(backBuffers[..])
      && frameFenceValues[..] == old(frameFenceValues[..])
      && commandQueue.fenceValue == old(commandQueue.fenceValue)
      && commandQueue.executed == old(commandQueue.executed)
      && commandQueue.fence.signalled == old(commandQueue.fence.signalled)
      && commandQueue.fence.completed == old(commandQueue.fence.completed)
      && swapChain.generation == old(swapChain.generation)
      && swapChain.width == old(swapChain.width) && swapChain.height == old(swapChain.height)
      && swapChain.currentIndex == old(swapChain.currentIndex)
      && swapChain.presents == old(swapChain.presents)
      && rtvHeap.views == old(rtvHeap.views)
    }

    /** What Resize(width, height) does. With the size unchanged: nothing. Otherwise the
        client size becomes the requested one clamped to at least 1, the queue is
        flushed, every back buffer is released and every slot takes the current slot's
        fence value; then, GetDesc and ResizeBuffers permitting, the swap chain is
        resized, the current index re-read and the render target views rebuilt, and
        when either fails the swap chain and the views stay as they were. No path
        presents or submits a command list. */
    twostate predicate ResizeOutcome(width: Uint32, height: Uint32, descHr: HResult, resizeHr: HResult,
                                     next: nat, o: Outcome)
      requires old(SlotsValid())
      reads this, backBuffers, frameFenceValues, commandQueue, commandQueue.fence, swapChain, rtvHeap, device
    {
      && swapChain.presents == old(swapChain.presents)
      && commandQueue.executed == old(commandQueue.executed)
      && (width == old(clientWidth) && height == old(clientHeight) ==>
            && o == Ok && clientWidth == old(clientWidth) && clientHeight == old(clientHeight)
            && GpuKept())
      && (!(width == old(clientWidth) && height == old(clientHeight)) ==>
            && clientWidth == AtLeastOne(width) && clientHeight == AtLeastOne(height)
            && commandQueue.fenceValue == old(commandQueue.fenceValue) + 1
            && commandQueue.fence.completed == commandQueue.fenceValue
            && (forall i :: 0 <= i < numFrames ==>
                  frameFenceValues[i] == old(frameFenceValues[currentBackBufferIndex]))
            && (o == Ok <==> !Failed(descHr) && !Failed(resizeHr)))
      && (!(width == old(clientWidth) && height == old(clientHeight)) && o == Thrown ==>
            && swapChain.generation == old(swapChain.generation)
            && swapChain.width == old(swapChain.width) && swapChain.height == old(swapChain.height)
            && swapChain.currentIndex == old(swapChain.currentIndex)
            && currentBackBufferIndex == old(currentBackBufferIndex)
            && (forall i :: 0 <= i < numFrames ==> backBuffers[i] == None)
            && rtvHeap.views == old(rtvHeap.views))
      && (!(width == old(clientWidth) && height == old(clientHeight)) && o == Ok ==>
            && swapChain.generation == old(swapChain.generation) + 1
            && swapChain.width == clientWidth && swapChain.height == clientHeight
            && currentBackBufferIndex == next
            && (forall i :: 0 <= i < numFrames ==> backBuffers[i] == Some(swapChain.Buffer(i)))
            && (forall i :: 0 <= i < numFrames ==>
                  Graphics.RtvHandle(rtvHeap.start, i, device.rtvIncrement) in rtvHeap.views &&
                  rtvHeap.views[Graphics.RtvHandle(rtvHeap.start, i, device.rtvIncrement)] ==
                    Rtv(swapChain.Buffer(i))))
    }

    /** Resize, as ResizeOutcome states it; the window and the flags stay. */
    method Resize(width: Uint32, height: Uint32, descHr: HResult, resizeHr: HResult, next: nat)
      returns (o: Outcome)
      requires Valid() && next < numFrames
      modifies this, backBuffers, frameFenceValues, commandQueue, commandQueue.fence, swapChain, rtvHeap
      ensures Valid()
      ensures ResizeOutcome(width, height, descHr, resizeHr, next, o)
      ensures fullscreen == old(fullscreen) && vsync == old(vsync) && isInitialized == old(isInitialized)
      ensures quitPosted == old(quitPosted) && placement == old(placement)
      ensures windowStyle == old(windowStyle) && windowRect == old(windowRect)
      ensures zOrder == old(zOrder) && show == old(show)
    {
      o := Ok;
      if clientWidth != width || clientHeight != height {
        clientWidth := AtLeastOne(width);
        clientHeight := AtLeastOne(height);

        commandQueue.Flush();
        ReleaseBackBuffers();

        o := ThrowIfFailed(descHr);
        if o == Thrown { return; }
        o := swapChain.ResizeBuffers(backBuffers, numFrames, clientWidth, clientHeight, resizeHr, next);
        if o == Thrown { return; }

        currentBackBufferIndex := swapChain.CurrentBackBufferIndex();
        Graphics.UpdateRenderTargetViews(device, swapChain, rtvHeap, backBuffers);
      }
    }

    /** SetFullscreen: nothing happens when the window is already in the requested
        mode. Entering fullscreen saves the current window rectangle, drops every
        decoration and covers the monitor, topmost and maximized; leaving it restores
        the decorations and the saved rectangle. */
    method SetFullscreen(f: bool, currentRect: Rect, monitor: Rect)
      modifies this
      ensures fullscreen == f
      ensures f == old(fullscreen) ==>
                windowRect == old(windowRect) && windowStyle == old(windowStyle) &&
                placement == old(placement) && zOrder == old(zOrder) && show == old(show)
      ensures f && !old(fullscreen) ==>
                windowRect == currentRect && windowStyle == BorderlessStyle() &&
                placement == RectPlacement(monitor) && zOrder == Top && show == ShowMaximized
      ensures !f && old(fullscreen) ==>
                windowRect == old(windowRect) && windowStyle == WS_OVERLAPPEDWINDOW &&
                placement == RectPlacement(old(windowRect)) && zOrder == NoTopMost && show == ShowNormal
      ensures clientWidth == old(clientWidth) && clientHeight == old(clientHeight)
      ensures vsync == old(vsync) && quitPosted == old(quitPosted) && isInitialized == old(isInitialized)
      ensures currentBackBufferIndex == old(currentBackBufferIndex)
    {
      if fullscreen != f {
        fullscreen := f;
        if fullscreen {
          windowRect := currentRect;
          windowStyle := BorderlessStyle();
          placement := RectPlacement(monitor);
          zOrder := Top;
          show := ShowMaximized;
        } else {
          windowStyle := WS_OVERLAPPEDWINDOW;
          placement := RectPlacement(windowRect);
          zOrder := NoTopMost;
          show := ShowNormal;
        }
      }
    }

    /** The key bindings: V toggles vsync, Escape posts the quit message, and F11, or
        Enter with Alt held, toggles fullscreen. */
    method OnKeyDown(key: nat, alt: bool, currentRect: Rect, monitor: Rect)
      modifies this
      ensures vsync == (if key == KeyV then !old(vsync) else old(vsync))
      ensures quitPosted == (old(quitPosted) || key == VK_ESCAPE)
      ensures fullscreen == (if TogglesFullscreen(key, alt) then !old(fullscreen) else old(fullscreen))
      ensures !TogglesFullscreen(key, alt) ==>
                windowRect == old(windowRect) && windowStyle == old(windowStyle) &&
                placement == old(placement) && zOrder == old(zOrder) && show == old(show)
      ensures TogglesFullscreen(key, alt) && !old(fullscreen) ==>
                windowRect == currentRect && windowStyle == BorderlessStyle() &&
                placement == RectPlacement(monitor) && zOrder == Top && show == ShowMaximized
      ensures TogglesFullscreen(key, alt) && old(fullscreen) ==>
                windowRect == old(windowRect) && windowStyle == WS_OVERLAPPEDWINDOW &&
                placement == RectPlacement(old(windowRect)) && zOrder == NoTopMost && show == ShowNormal
      ensures clientWidth == old(clientWidth) && clientHeight == old(clientHeight)
      ensures isInitialized == old(isInitialized) && currentBackBufferIndex == old(currentBackBufferIndex)
    {
      if key == KeyV {
        vsync := !vsync;
      } else if key == VK_ESCAPE {
        quitPosted := true;
      } else if TogglesFullscreen(key, alt) {
        SetFullscreen(!fullscreen, currentRect, monitor);
      }
    }

    /** WndProc: before initialization every message goes to the default procedure;
        afterwards key messages go to OnKeyDown, WM_SIZE resizes to the client
        rectangle, WM_DESTROY posts the quit message, WM_SYSCHAR is swallowed, and any
        other message goes to the default procedure. `defaulted` tells which. */
    method WndProc(m: Message, currentRect: Rect, monitor: Rect,
                   descHr: HResult, resizeHr: HResult, next: nat)
      returns (defaulted: bool, o: Outcome)
      requires Valid() && next < numFrames
      modifies this, backBuffers, frameFenceValues, commandQueue, commandQueue.fence, swapChain, rtvHeap
      ensures Valid()
      ensures defaulted <==> !old(isInitialized) || m.OtherMessage?
      ensures old(isInitialized) && m.Size? ==>
                ResizeOutcome(ToUint32(m.clientRect.right - m.clientRect.left),
                              ToUint32(m.clientRect.bottom - m.clientRect.top), descHr, resizeHr, next, o)
      ensures !(old(isInitialized) && m.Size?) ==>
                o == Ok && clientWidth == old(clientWidth) && clientHeight == old(clientHeight) && GpuKept()
      ensures quitPosted == (old(quitPosted) || (old(isInitialized) &&
                               (m.Destroy? || ((m.KeyDown? || m.SysKeyDown?) && m.key == VK_ESCAPE))))
      ensures isInitialized == old(isInitialized)
      ensures old(isInitialized) && (m.KeyDown? || m.SysKeyDown?) ==>
                && vsync == (if m.key == KeyV then !old(vsync) else old(vsync))
                && fullscreen ==
                     (if TogglesFullscreen(m.key, m.alt) then !old(fullscreen) else old(fullscreen))
                && (TogglesFullscreen(m.key, m.alt) && !old(fullscreen) ==>
                      windowRect == currentRect && windowStyle == BorderlessStyle() &&
                      placement == RectPlacement(monitor) && zOrder == Top && show == ShowMaximized)
                && (TogglesFullscreen(m.key, m.alt) && old(fullscreen) ==>
                      windowRect == old(windowRect) && windowStyle == WS_OVERLAPPEDWINDOW &&
                      placement == RectPlacement(old(windowRect)) && zOrder == NoTopMost &&
                      show == ShowNormal)
      ensures !(old(isInitialized) && (m.KeyDown? || m.SysKeyDown?) && TogglesFullscreen(m.key, m.alt)) ==>
                && fullscreen == old(fullscreen) && windowRect == old(windowRect)
                && windowStyle == old(windowStyle) && placement == old(placement)
                && zOrder == old(zOrder) && show == old(show)
      ensures !(old(isInitialized) && (m.KeyDown? || m.SysKeyDown?) && m.key == KeyV) ==>
                vsync == old(vsync)
    {
      defaulted := false;
      o := Ok;
      if !isInitialized {
        defaulted := true;
        return;
      }
      match m
      case Paint =>
      case KeyDown(key, alt) =>
        OnKeyDown(key, alt, currentRect, monitor);
      case SysKeyDown(key, alt) =>
        OnKeyDown(key, alt, currentRect, monitor);
      case SysChar =>
      case Size(r) =>
        o := Resize(ToUint32(r.right - r.left), ToUint32(r.bottom - r.top), descHr, resizeHr, next);
      case Destroy =>
        quitPosted := true;
      case OtherMessage(_) =>
        defaulted := true;
    }
  }

  /** Entering and then leaving fullscreen puts the window back where it was, with its
      decorations. */
  method FullscreenRoundTrip(w: WindowState, currentRect: Rect, monitor: Rect)
    requires !w.fullscreen
    modifies w
    ensures !w.fullscreen && w.windowStyle == WS_OVERLAPPEDWINDOW
    ensures w.placement == RectPlacement(currentRect) && w.show == ShowNormal
  {
    w.SetFullscreen(true, currentRect, monitor);
    w.SetFullscreen(false, currentRect, monitor);
  }
}
