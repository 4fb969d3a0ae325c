/** The cached state of one X11 platform window: handle, size hints, last requested
    geometry, cached minimum and maximum sizes, title, clipboard text, screen PPI and
    pixel ratio. Xlib calls are replaced by their results, passed in as parameters
    (the attributes query, the screen size, the ids XCreateColormap and XCreateWindow
    return).

    The source file does not compile as it stands; the model follows its evident
    intent: `set_position`, `set_size` and `set_pixel_ratio` are members of the
    window, `set_pixel_ratio` stores its argument `new_ratio`, the root window is
    taken from `handle.display` and `handle.screen`, and the misspelled assertion of
    `create` (on a foreign call's result) is left out. */
module X11WindowState {
  import opened Wrappers
  import opened Geometry

  /** The smallest width and height a window is created with. */
  const ResizeMinimumSize: int := 8

  /** Xlib's `NorthWestGravity`. */
  const NorthWestGravity: int := 1

  /** `map_state` of XWindowAttributes. */
  datatype MapState = IsUnmapped | IsUnviewable | IsViewable

  /** `DisplayWindowHandle`: display pointer (0 = null), window id (0 = none), screen. */
  datatype WindowHandle = WindowHandle(display: nat, window: nat, screen: int)

  /** The fields of XVisualInfo the window uses. */
  datatype VisualInfo = VisualInfo(display: nat, screen: int)

  /** The parts of `DisplayWindowDescription` that `create` reads. */
  datatype WindowDescription = WindowDescription(positionClientArea: bool, allowResize: bool)

  /** The `WM_NORMAL_HINTS` fields `create` sets (section 4.1.2.3 of the ICCCM). */
  datatype SizeHints = SizeHints(
    minWidth: int, minHeight: int, maxWidth: int, maxHeight: int,
    widthInc: int, heightInc: int, baseWidth: int, baseHeight: int, winGravity: int)

  const AttributesFailed: string := "xGetWindowAttributes failed"
  const WindowUnmapped: string := "window is unmapped"
  const NotImplemented: string := "not yet implemented"

  // ---------------------------------------------------------------------------
  // Screen density and pixel ratio
  // ---------------------------------------------------------------------------

  /** The PPI `prepare` derives from the screen width in pixels and millimetres:
      96 when the server reports less than 24 mm, else pixels per 25.4 mm. */
  function ScreenPpi(px: int, mm: int): (ppi: real)
    ensures mm < 24 ==> ppi == 96.0
    ensures mm >= 24 ==> ppi * (mm as real) == 25.4 * (px as real)
  {
    if mm < 24 then 96.0 else 25.4 * (px as real) / (mm as real)
  }

  /** `std::round`: the nearest integer, halfway cases away from zero. */
  function RoundHalfAway(x: real): (n: int)
    ensures x >= 0.0 ==> x - 0.5 < n as real <= x + 0.5
    ensures x < 0.0 ==> x - 0.5 <= n as real < x + 0.5
  {
    if x >= 0.0 then (x + 0.5).Floor else -((0.5 - x).Floor)
  }

  /** The ratio chosen for the PPI bucket `s` = round(ppi / 16): 1 up to 96 PPI,
      sixth steps up to 192 PPI, a whole ratio (s div 6) from 192 PPI on. */
  function RatioForBucket(s: int): (r: real)
    ensures r >= 1.0
    ensures s <= 6 ==> r == 1.0
    ensures s > 6 ==> r <= (s as real) / 6.0
    ensures s >= 12 ==> r == (s / 6) as real && r == r.Floor as real
    ensures 6 < s < 12 ==> r * 6.0 == s as real
  {
    if s <= 6 then 1.0
    else if s >= 12 then
      assert (s / 6) * 6 <= s;
      (s / 6) as real
    else (s as real) / 6.0
  }

  /** A denser screen never gets a smaller ratio. */
  lemma RatioMonotone(s1: int, s2: int)
    requires s1 <= s2
    ensures RatioForBucket(s1) <= RatioForBucket(s2)
  {
    if s1 >= 12 {
      assert s1 / 6 <= s2 / 6 by {
        assert (s1 / 6) * 6 <= s1 <= s2 < (s2 / 6) * 6 + 6;
      }
    } else if s1 > 6 && s2 >= 12 {
      assert (s1 as real) / 6.0 < 2.0;
      assert s2 / 6 >= 2;
    }
  }

  /** What `set_pixel_ratio(new_ratio)` leaves in `pixel_ratio`: a nonzero ratio as
      given, an unset (zero) one from the PPI bucket, then at least 1. */
  function ChosenPixelRatio(newRatio: real, ppi: real): (r: real)
    ensures newRatio != 0.0 ==> r == newRatio
    ensures newRatio == 0.0 ==> r >= 1.0 && r == RatioForBucket(RoundHalfAway(ppi / 16.0))
  {
    if newRatio != 0.0 then newRatio else RatioForBucket(RoundHalfAway(ppi / 16.0))
  }

  // ---------------------------------------------------------------------------
  // Initial size, size limits and size hints
  // ---------------------------------------------------------------------------

  function Max(a: int, b: int): int { if a >= b then a else b }

  /** Each dimension raised to at least `ResizeMinimumSize`. */
  function ClampedSize(s: Size): (r: Size)
    ensures r.width >= ResizeMinimumSize && r.height >= ResizeMinimumSize
    ensures r.width >= s.width && r.height >= s.height
    ensures r.width == s.width || r.width == ResizeMinimumSize
    ensures r.height == s.height || r.height == ResizeMinimumSize
  {
    Size(Max(ResizeMinimumSize, s.width), Max(ResizeMinimumSize, s.height))
  }

  /** The cached (minimum, maximum) client sizes: both the window size when resize
      is disallowed, else the smallest resize size and `(-1, -1)` for "no maximum". */
  function SizeLimits(windowSize: Size, allowResize: bool): (limits: (Size, Size))
    ensures !allowResize ==> limits.0 == windowSize && limits.1 == windowSize
    ensures allowResize ==> limits.0 == Size(ResizeMinimumSize, ResizeMinimumSize) && limits.1 == Size(-1, -1)
  {
    (if !allowResize then windowSize else Size(ResizeMinimumSize, ResizeMinimumSize),
     if !allowResize then windowSize else Size(-1, -1))
  }

  /** The size hints `create` writes: limits from the cache, 1x1 increments, base
      size the window size, north-west gravity. */
  function NormalHints(minimum: Size, maximum: Size, windowSize: Size): (h: SizeHints)
    ensures h.minWidth == minimum.width && h.minHeight == minimum.height
    ensures h.maxWidth == maximum.width && h.maxHeight == maximum.height
    ensures h.widthInc == 1 && h.heightInc == 1
    ensures h.baseWidth == windowSize.width && h.baseHeight == windowSize.height
    ensures h.winGravity == NorthWestGravity
  {
    SizeHints(minimum.width, minimum.height, maximum.width, maximum.height,
              1, 1, windowSize.width, windowSize.height, NorthWestGravity)
  }

  /** The window `create` makes respects its own limits: its size lies between the
      minimum and the maximum (or there is no maximum), and the hints it sends admit
      that size as their base. */
  lemma CreatedSizeWithinLimits(scaled: Size, allowResize: bool)
    ensures var size := ClampedSize(scaled);
      var (minimum, maximum) := SizeLimits(size, allowResize);
      var hints := NormalHints(minimum, maximum, size);
      && minimum.width <= size.width && minimum.height <= size.height
      && (maximum == Size(-1, -1) || (size.width <= maximum.width && size.height <= maximum.height))
      && (!allowResize ==> minimum == maximum == size)
      && hints.minWidth <= hints.baseWidth && hints.minHeight <= hints.baseHeight
      && (hints.maxWidth == -1 || hints.baseWidth <= hints.maxWidth)
      && (hints.maxHeight == -1 || hints.baseHeight <= hints.maxHeight)
      && hints.widthInc == 1 && hints.heightInc == 1 && hints.winGravity == NorthWestGravity
  {
  }

  // ---------------------------------------------------------------------------
  // The window
  // ---------------------------------------------------------------------------

  class X11Window {
    var handle: WindowHandle
    var site: nat
    var colormap: nat
    /** `size_hints`; `None` until `create` allocates it. */
    var sizeHints: Option<SizeHints>
    var lastPosition: Point
    var lastSize: Size
    var minimumSize: Size
    var maximumSize: Size
    var clientWindowSize: Size
    var windowTitle: string
    var cbText: string
    var ppi: real
    /** 0 means unset. */
    var pixelRatio: real

    /** A window with no native resources yet: zero handle, no site, colormap 0,
        PPI 96 and an unset pixel ratio; `None` stands for the size-hints pointer the
        source leaves uninitialised, and the cached geometry, title and clipboard text
        are default-constructed. */
    constructor ()
      ensures handle == WindowHandle(0, 0, 0) && site == 0 && colormap == 0
      ensures sizeHints.None?
      ensures ppi == 96.0 && pixelRatio == 0.0
      ensures minimumSize == DefaultSize && maximumSize == DefaultSize && windowTitle == ""
      ensures lastPosition == Origin && lastSize == DefaultSize && clientWindowSize == DefaultSize && cbText == ""
    {
      handle := WindowHandle(0, 0, 0);
      site := 0;
      colormap := 0;
      sizeHints := None;
      lastPosition := Origin;
      lastSize := DefaultSize;
      minimumSize := DefaultSize;
      maximumSize := DefaultSize;
      clientWindowSize := DefaultSize;
      windowTitle := "";
      cbText := "";
      ppi := 96.0;
      pixelRatio := 0.0;
    }

    /** `set_pixel_ratio`: stores `new_ratio`, or, when it is unset (zero), the ratio
        of the current PPI bucket. */
    method SetPixelRatio(newRatio: real)
      modifies this`pixelRatio
      ensures pixelRatio == ChosenPixelRatio(newRatio, ppi)
    {
      pixelRatio := newRatio;
      if pixelRatio == 0.0 {
        var s := RoundHalfAway(ppi / 16.0);
        if s <= 6 {
          pixelRatio := 1.0;
        } else if s >= 12 {
          pixelRatio := (s / 6) as real;
        } else {
          pixelRatio := (s as real) / 6.0;
        }
      }
    }

    /** `prepare`: the PPI from the screen width (`px` pixels, `mm` millimetres),
        then the pixel ratio re-chosen from the current one. */
    method Prepare(px: int, mm: int)
      modifies this`ppi, this`pixelRatio
      ensures ppi == ScreenPpi(px, mm)
      ensures pixelRatio == ChosenPixelRatio(old(pixelRatio), ppi)
    {
      ppi := if mm < 24 then 96.0 else 25.4 * (px as real) / (mm as real);
      SetPixelRatio(pixelRatio);
    }

    /** `create`. `scaled` is the description's size times the pixel ratio as the
        math API computes it; `newColormap` and `newWindow` are what XCreateColormap
        and XCreateWindow return. Frame-area positioning is refused after the handle,
        site, PPI and ratio have been set up; otherwise the size is clamped and the
        cached limits and size hints follow from it. */
    method Create(visual: VisualInfo, newSite: nat, desc: WindowDescription,
                  px: int, mm: int, newColormap: nat, scaled: Size, newWindow: nat)
      returns (r: Outcome)
      modifies this
      ensures site == newSite && handle.display == visual.display && handle.screen == visual.screen
      ensures ppi == ScreenPpi(px, mm)
      ensures pixelRatio == ChosenPixelRatio(old(pixelRatio), ppi)
      ensures colormap == newColormap
      ensures r.Fail? <==> !desc.positionClientArea
      ensures r.Fail? ==>
        && handle.window == 0 && sizeHints == old(sizeHints)
        && lastSize == old(lastSize) && minimumSize == old(minimumSize) && maximumSize == old(maximumSize)
      ensures r.Pass? ==>
        var size := ClampedSize(scaled);
        && handle.window == newWindow
        && lastSize == size
        && (minimumSize, maximumSize) == SizeLimits(size, desc.allowResize)
        && sizeHints == Some(NormalHints(minimumSize, maximumSize, size))
      ensures lastPosition == old(lastPosition) && clientWindowSize == old(clientWindowSize)
      ensures windowTitle == old(windowTitle) && cbText == old(cbText)
    {
      handle := WindowHandle(visual.display, 0, visual.screen);
      site := newSite;
      Prepare(px, mm);
      colormap := newColormap;
      if !desc.positionClientArea {
        return Fail("window frame area positioning is not supported");
      }
      var windowSize := scaled;
      windowSize := windowSize.(width := Max(ResizeMinimumSize, windowSize.width));
      windowSize := windowSize.(height := Max(ResizeMinimumSize, windowSize.height));
      handle := handle.(window := newWindow);
      lastSize := windowSize;
      minimumSize := if !desc.allowResize then windowSize else Size(ResizeMinimumSize, ResizeMinimumSize);
      maximumSize := if !desc.allowResize then windowSize else Size(-1, -1);
      sizeHints := Some(SizeHints(minimumSize.width, minimumSize.height, maximumSize.width, maximumSize.height,
                                  1, 1, windowSize.width, windowSize.height, NorthWestGravity));
      r := Pass;
    }

    /** `destroy`: clears the cached limits and title. */
    method Destroy()
      modifies this`minimumSize, this`maximumSize, this`windowTitle
      ensures minimumSize == DefaultSize && maximumSize == DefaultSize && windowTitle == ""
    {
      minimumSize := DefaultSize;
      maximumSize := DefaultSize;
      windowTitle := "";
    }

    /** `set_position`. `attrs` is the map state XGetWindowAttributes reports (`None`
        when that call fails). An unmapped window is refused and nothing changes;
        otherwise the move is requested and cached. */
    method SetPosition(newPos: Point, attrs: Option<MapState>) returns (r: Outcome)
      modifies this`lastPosition
      ensures r.Pass? <==> attrs.Some? && attrs.value != IsUnmapped
      ensures lastPosition == if r.Pass? then newPos else old(lastPosition)
    {
      if attrs.None? {
        return Fail(AttributesFailed);
      }
      if attrs.value == IsUnmapped {
        return Fail(WindowUnmapped);
      }
      lastPosition := newPos;
      r := Pass;
    }

    /** `set_size`: as `set_position`, for the cached size. */
    method SetSize(newSize: Size, attrs: Option<MapState>) returns (r: Outcome)
      modifies this`lastSize
      ensures r.Pass? <==> attrs.Some? && attrs.value != IsUnmapped
      ensures lastSize == if r.Pass? then newSize else old(lastSize)
    {
      if attrs.None? {
        return Fail(AttributesFailed);
      }
      if attrs.value == IsUnmapped {
        return Fail(WindowUnmapped);
      }
      lastSize := newSize;
      r := Pass;
    }

    /** `get_viewport`: the client area at the origin. */
    function GetViewport(): (r: Rect)
      reads this
      ensures r.left == 0 && r.top == 0
      ensures r.Width() == clientWindowSize.width && r.Height() == clientWindowSize.height
    {
      RectAt(0, 0, clientWindowSize)
    }

    /** `get_minimum_size`: the cached minimum client size. */
    function GetMinimumSize(): (s: Size)
      reads this
      ensures s == minimumSize
    {
      minimumSize
    }

    /** `get_maximum_size`: the cached maximum client size. */
    function GetMaximumSize(): (s: Size)
      reads this
      ensures s == maximumSize
    {
      maximumSize
    }

    /** `get_title`: the cached title. */
    function GetTitle(): (t: string)
      reads this
      ensures t == windowTitle
    {
      windowTitle
    }

    /** `set_clipboard_text`: stores the text and nothing else. */
    method SetClipboardText(text: string)
      modifies this`cbText
      ensures cbText == text
    {
      cbText := text;
    }

    /** `get_geometry` always throws (frame extents are not implemented). */
    function GetGeometry(): (r: Result<Rect>)
      ensures r.Failure?
    {
      Failure("frame extents not yet implemented")
    }

    /** `is_clipboard_text_available` always throws. */
    function IsClipboardTextAvailable(): (r: Result<bool>)
      ensures r.Failure?
    {
      Failure(NotImplemented)
    }

    /** `is_clipboard_image_available` always throws. */
    function IsClipboardImageAvailable(): (r: Result<bool>)
      ensures r.Failure?
    {
      Failure(NotImplemented)
    }

    /** `get_clipboard_text` always throws, whatever `set_clipboard_text` stored. */
    function GetClipboardText(): (r: Result<string>)
      ensures r.Failure?
    {
      Failure(NotImplemented)
    }

    /** `get_clipboard_image` always throws; `nat` stands for the pixel buffer. */
    function GetClipboardImage(): (r: Result<nat>)
      ensures r.Failure?
    {
      Failure(NotImplemented)
    }

    /** `set_clipboard_image` always throws and stores nothing. */
    method SetClipboardImage(pixelBuffer: nat) returns (r: Outcome)
      ensures r.Fail?
    {
      r := Fail("setting an image to the clipboard is not yet implemented");
    }
  }

  // ---------------------------------------------------------------------------
  // Visibility (see Findings in README.md)
  // ---------------------------------------------------------------------------

  /** `is_visible` as written: true when the window is NOT viewable. */
  function IsVisibleAsWritten(attrs: Option<MapState>): (r: Result<bool>)
    ensures attrs.None? <==> r.Failure?
    ensures attrs.Some? ==> r == Success(attrs.value != IsViewable)
  {
    if attrs.None? then Failure(AttributesFailed) else Success(attrs.value != IsViewable)
  }

  /** As written, a viewable window reports itself invisible and an unmapped one
      visible. */
  lemma IsVisibleAsWrittenInverted()
    ensures IsVisibleAsWritten(Some(IsViewable)) == Success(false)
    ensures IsVisibleAsWritten(Some(IsUnmapped)) == Success(true)
  {
  }

  /** `is_visible` as evidently intended: visible exactly when viewable. */
  function IsVisible(attrs: Option<MapState>): (r: Result<bool>)
    ensures attrs.None? <==> r.Failure?
    ensures r == Success(true) <==> attrs == Some(IsViewable)
    ensures attrs == Some(IsUnmapped) ==> r == Success(false)
  {
    if attrs.None? then Failure(AttributesFailed) else Success(attrs.value == IsViewable)
  }
}
