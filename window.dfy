/** The window geometry of the GLUT front-ends: fitting a box to an aspect
    ratio in place, the centred viewport the reshape callback sets in game
    mode, and the `main_window_wh` ratio each front-end keeps. */
module WindowGeometry {
  import opened Arith

  /** C's `/` on int: the quotient truncated toward zero. */
  function CDiv(a: int, b: int): int
    requires b != 0
  {
    var q := (if a < 0 then -a else a) / (if b < 0 then -b else b);
    if (a < 0) != (b < 0) then -q else q
  }

  /** The divisions constraint_to_ratio performs are defined: the width
      ratio is never 0, and the height ratio is not 0 when the clamping
      branch divides by it. */
  predicate FitDefined(w: int, h: int, r0: int, r1: int)
  {
    r0 != 0 && (CDiv(w * r1, r0) > h ==> r1 != 0)
  }

  /** The box constraint_to_ratio produces from (w, h) and the ratio
      r0 : r1: keep the width and derive the height, unless that height
      overflows the box, in which case keep the height and derive the width. */
  function Fit(w: int, h: int, r0: int, r1: int): (int, int)
    requires FitDefined(w, h, r0, r1)
  {
    var tentativeHeight := CDiv(w * r1, r0);
    if tentativeHeight > h then (CDiv(h * r0, r1), h) else (w, tentativeHeight)
  }

  /** constraint_to_ratio: overwrites box with the fitted width and height. */
  method ConstraintToRatio(box: array<int>, pixelRatio: array<int>)
    requires box.Length == 2 && pixelRatio.Length == 2
    requires FitDefined(box[0], box[1], pixelRatio[0], pixelRatio[1])
    modifies box
    ensures box[0] == Fit(old(box[0]), old(box[1]), old(pixelRatio[0]), old(pixelRatio[1])).0
    ensures box[1] == Fit(old(box[0]), old(box[1]), old(pixelRatio[0]), old(pixelRatio[1])).1
  {
    var tentativeWidth := box[0];
    var tentativeHeight := CDiv(box[0] * pixelRatio[1], pixelRatio[0]);
    if tentativeHeight > box[1] {
      tentativeHeight := box[1];
      tentativeWidth := CDiv(tentativeHeight * pixelRatio[0], pixelRatio[1]);
    }
    box[0] := tentativeWidth;
    box[1] := tentativeHeight;
  }

  /** a < c·b gives a / b < c. */
  lemma QuotientBelow(a: nat, b: nat, c: nat)
    requires b > 0 && a < c * b
    ensures a / b < c
  {
    QuotientBounds(a, b);
    assert (c - a / b) * b == c * b - (a / b) * b;
  }

  /** C's division agrees with Dafny's on a non-negative dividend and a
      positive divisor. */
  lemma CDivNatural(a: int, b: int)
    requires a >= 0 && b > 0
    ensures CDiv(a, b) == a / b
  {
  }

  /** A height that overflows the box gives a clamped width inside it:
      h < ⌊w·r1 / r0⌋ gives h·r0 < w·r1, hence ⌊h·r0 / r1⌋ < w. */
  lemma ClampedWidthBelow(w: nat, h: nat, r0: nat, r1: nat)
    requires r0 > 0 && r1 > 0 && h < (w * r1) / r0
    ensures (h * r0) / r1 < w
  {
    var tentativeHeight := (w * r1) / r0;
    QuotientBounds(w * r1, r0);
    var spare: nat := tentativeHeight - (h + 1);
    assert tentativeHeight * r0 == h * r0 + r0 + spare * r0;
    assert h * r0 < w * r1;
    QuotientBelow(h * r0, r1, w);
  }

  /** For positive ratios and a non-negative box the fitted box lies inside
      the original one. */
  lemma {:induction false} FitInsideBox(w: int, h: int, r0: int, r1: int)
    requires r0 > 0 && r1 > 0 && w >= 0 && h >= 0
    ensures FitDefined(w, h, r0, r1)
    ensures 0 <= Fit(w, h, r0, r1).0 <= w && 0 <= Fit(w, h, r0, r1).1 <= h
  {
    var widthScaled, heightScaled := w * r1, h * r0;
    assert widthScaled >= 0 && heightScaled >= 0;
    CDivNatural(widthScaled, r0);
    CDivNatural(heightScaled, r1);
    if widthScaled / r0 > h {
      ClampedWidthBelow(w, h, r0, r1);
    }
  }

  /** The fitted box has the ratio r0 : r1 up to the rounding of the one
      side it derives, and keeps the other side of the original box. */
  lemma FitMatchesRatio(w: int, h: int, r0: int, r1: int)
    requires r0 > 0 && r1 > 0 && w >= 0 && h >= 0
    ensures FitDefined(w, h, r0, r1)
    ensures var (w', h') := Fit(w, h, r0, r1);
      || (w' == w && h' * r0 <= w * r1 < h' * r0 + r0)
      || (h' == h && w' * r1 <= h * r0 < w' * r1 + r1)
  {
    QuotientBounds(w * r1, r0);
    QuotientBounds(h * r0, r1);
  }

  /** A box that already has the ratio is left as it is. */
  lemma FitKeepsExactBox(w: int, h: int, r0: int, r1: int)
    requires r0 > 0 && r1 > 0 && w >= 0 && h >= 0 && w * r1 == h * r0
    ensures FitDefined(w, h, r0, r1) && Fit(w, h, r0, r1) == (w, h)
  {
    DivModUnique(w * r1, r0, h, 0);
  }

  /** What glViewport is given: the lower-left corner and the size. */
  datatype Viewport = Viewport(x: int, y: int, width: int, height: int)

  /** The offset that centres `inner` in `total`. */
  function Centre(total: int, inner: int): int
  {
    CDiv(total - inner, 2)
  }

  /** reshape_callback: the whole window outside game mode; in game mode
      the window's size fitted to the ratio `mainWindowWH`, centred. */
  method ReshapeCallback(width: int, height: int, gameModeActive: bool, mainWindowWH: array<int>)
    returns (viewport: Viewport)
    requires mainWindowWH.Length == 2
    requires gameModeActive ==> FitDefined(width, height, mainWindowWH[0], mainWindowWH[1])
    ensures !gameModeActive ==> viewport == Viewport(0, 0, width, height)
    ensures gameModeActive ==>
      var fit := Fit(width, height, mainWindowWH[0], mainWindowWH[1]);
      viewport == Viewport(Centre(width, fit.0), Centre(height, fit.1), fit.0, fit.1)
  {
    var dim := new int[2];
    dim[0], dim[1] := width, height;
    var correction := new int[2];
    correction[0], correction[1] := 0, 0;

    if gameModeActive {
      ConstraintToRatio(dim, mainWindowWH);
      correction[0] := CDiv(width - dim[0], 2);
      correction[1] := CDiv(height - dim[1], 2);
    }
    viewport := Viewport(correction[0], correction[1], dim[0], dim[1]);
  }

  /** In game mode, with a positive ratio and a non-negative window, the
      viewport lies inside the window with offsets that are non-negative
      and split the spare room evenly, the odd pixel going to the far side. */
  lemma GameModeViewportCentred(width: int, height: int, r0: int, r1: int)
    requires r0 > 0 && r1 > 0 && width >= 0 && height >= 0
    ensures FitDefined(width, height, r0, r1)
    ensures var fit := Fit(width, height, r0, r1);
      var vp := Viewport(Centre(width, fit.0), Centre(height, fit.1), fit.0, fit.1);
      && 0 <= vp.x && 0 <= vp.y && 0 <= vp.width && 0 <= vp.height
      && 2 * vp.x + vp.width <= width <= 2 * vp.x + vp.width + 1
      && 2 * vp.y + vp.height <= height <= 2 * vp.y + vp.height + 1
  {
    FitInsideBox(width, height, r0, r1);
  }

  /** The static state of gl-window-callbacks.cpp: the ratio the reshape
      callback fits to. */
  class WindowCallbacks {
    var mainWindowWH: array<int>

    constructor()
      ensures fresh(mainWindowWH) && mainWindowWH[..] == [1980, 720]
    {
      var wh := new int[2];
      wh[0], wh[1] := 1980, 720;
      mainWindowWH := wh;
    }

    /** register_window_callbacks: copies the window size into the ratio. */
    method RegisterWindowCallbacks(windowWH: array<int>)
      requires mainWindowWH.Length == 2 && windowWH.Length == 2
      modifies mainWindowWH
      ensures mainWindowWH[..] == old(windowWH[..])
    {
      var w, h := windowWH[0], windowWH[1];
      mainWindowWH[0] := w;
      mainWindowWH[1] := h;
    }
  }

  /** The static state of open-gl-window.cpp. */
  class GlutWindow {
    var mainWindowWH: array<int>

    constructor()
      ensures fresh(mainWindowWH) && mainWindowWH[..] == [640, 480]
    {
      var wh := new int[2];
      wh[0], wh[1] := 640, 480;
      mainWindowWH := wh;
    }

    /** The part of open_window that sets the ratio: the screen size,
        scaled by 1/√2 on each side unless full screen is preferred.
        `shrink` is that floating-point scaling with its truncation back to
        int. */
    method OpenWindow(screenWidth: int, screenHeight: int, prefersFullscreen: bool, shrink: int -> int)
      requires mainWindowWH.Length == 2
      modifies mainWindowWH
      ensures mainWindowWH[..] ==
        if prefersFullscreen then [screenWidth, screenHeight] else [shrink(screenWidth), shrink(screenHeight)]
    {
      var windowWH := new int[2];
      windowWH[0], windowWH[1] := screenWidth, screenHeight;
      if !prefersFullscreen {
        windowWH[0] := shrink(windowWH[0]);
        windowWH[1] := shrink(windowWH[1]);
      }
      mainWindowWH[0] := windowWH[0];
      mainWindowWH[1] := windowWH[1];
    }
  }
}
