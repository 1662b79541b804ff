/**
 * The interaction state machine of the histogram widget
 * (src/libs/histogram.c): the button layout computed on configure, the
 * hit-test of pointer motion, and the press, release, leave and scroll
 * callbacks.
 *
 * The widget record (`dt_lib_histogram_t`) is `Widget`; the develop
 * object's `histogram_type` is the display mode.  The exposure hooks of
 * the develop object are calls we cannot see: a callback's effect on them
 * is the list of `DevCall`s it makes, and the values the getter hooks
 * return are parameters.  Pointer coordinates are reals; the quotient
 * `x / (float)allocation.width` is an IEEE value (`Lut.Float`), because the
 * callbacks divide without checking the allocation.
 */
module Histogram {
  import opened Wrappers
  import opened Lut

  /** `dt_dev_histogram_type_t`: logarithmic, linear, waveform; `DT_DEV_HISTOGRAM_N`. */
  const Logarithmic: int := 0
  const Linear: int := 1
  const Waveform: int := 2
  const ModeCount: int := 3

  type HistogramType = t: int | 0 <= t < ModeCount

  /** The values of `highlight`: which region or button the pointer is over. */
  const NoHighlight: int := 0
  const BlackRegion: int := 1
  const ExposureRegion: int := 2
  const ModeButton: int := 3
  const RedButton: int := 4
  const GreenButton: int := 5
  const BlueButton: int := 6

  /** The button geometry set by the configure callback. */
  datatype Layout = Layout(modeX: real, redX: real, greenX: real, blueX: real,
                           buttonW: real, buttonH: real, buttonY: real, buttonSpacing: real)

  /** `dt_lib_histogram_t`. */
  datatype Widget = Widget(exposure: real, black: real, dragging: bool,
                           buttonDownX: int, buttonDownY: int, highlight: int,
                           red: bool, green: bool, blue: bool, layout: Layout)

  /** The widget record together with the develop object's display mode. */
  datatype State = State(w: Widget, mode: HistogramType)

  /** Calls into the develop object that change something there. */
  datatype DevCall =
    | SetExposure(exposure: Float)
    | SetBlack(black: Float)
    | ResetDefaults
    | ProcessPreview

  /** The new state after an event, and the calls the callback made. */
  datatype Reaction = Reaction(state: State, calls: seq<DevCall>)

  /** `event->type`: GDK reports a double and a triple click as their own press events. */
  datatype PressKind = ButtonPress | DoubleButtonPress | TripleButtonPress

  /** The record `gui_init` starts from: all zero, with the three toggles read from the configuration. */
  function InitialWidget(red: bool, green: bool, blue: bool): (w: Widget)
    ensures !w.dragging && w.highlight == NoHighlight
    ensures w.red == red && w.green == green && w.blue == blue
  {
    Widget(0.0, 0.0, false, 0, 0, NoHighlight, red, green, blue, Layout(0.0, 0.0, 0.0, 0.0, 0.0, 0.0, 0.0, 0.0))
  }

  /** The conversion `(int32_t)x` of a double: truncation towards zero. */
  function Trunc(x: real): (n: int)
    ensures x >= 0.0 ==> 0 <= n && n as real <= x < n as real + 1.0
    ensures x < 0.0 ==> n <= 0 && n as real - 1.0 < x <= n as real
  {
    if x >= 0.0 then x.Floor else -((-x).Floor)
  }

  /** `x / (float)d` in IEEE arithmetic; the divisor is `+0` when `d == 0`. */
  function Quotient(x: real, d: int): (q: Float)
    ensures d != 0 ==> q == Num(x / d as real)
    ensures d == 0 ==> (q.NaN? <==> x == 0.0)
  {
    if d != 0 then Num(x / d as real)
    else if x > 0.0 then PosInf
    else if x < 0.0 then NegInf
    else NaN
  }

  /** `a < c` for an IEEE value: false when `a` is NaN. */
  predicate Less(a: Float, c: real) {
    match a
    case Num(r) => r < c
    case NegInf => true
    case PosInf => false
    case NaN => false
  }

  /** `a > c` for an IEEE value: false when `a` is NaN. */
  predicate Greater(a: Float, c: real) {
    match a
    case Num(r) => r > c
    case PosInf => true
    case NegInf => false
    case NaN => false
  }

  // ---------------------------------------------------------------------
  // Configure: the button layout

  /**
   * `_lib_histogram_configure_callback`: four square buttons of 6% of the
   * width, 2% apart and 2% below the top.  The blue button ends one spacing
   * before the right edge, and each button starts one
   * `button_w + button_spacing` after the previous one, so they are in the
   * order mode, red, green, blue when the width is positive.
   */
  function ConfigureLayout(width: int): (l: Layout)
    ensures l.buttonSpacing == 0.02 * width as real && l.buttonW == 0.06 * width as real
    ensures l.buttonH == l.buttonW && l.buttonY == l.buttonSpacing
    ensures l.blueX + l.buttonW + l.buttonSpacing == width as real
    ensures l.redX - l.modeX == l.buttonW + l.buttonSpacing
    ensures l.greenX - l.redX == l.buttonW + l.buttonSpacing
    ensures l.blueX - l.greenX == l.buttonW + l.buttonSpacing
    ensures width > 0 ==> l.modeX < l.redX < l.greenX < l.blueX
  {
    var spacing := 0.02 * width as real;
    var w := 0.06 * width as real;
    var offset := w + spacing;
    var blueX := width as real - offset;
    var greenX := blueX - offset;
    var redX := greenX - offset;
    Layout(redX - offset, redX, greenX, blueX, w, w, spacing, spacing)
  }

  /** The configure callback changes the layout fields and no other. */
  function Configure(w: Widget, width: int): (r: Widget)
    ensures r.layout == ConfigureLayout(width) && r == w.(layout := r.layout)
  {
    w.(layout := ConfigureLayout(width))
  }

  // ---------------------------------------------------------------------
  // Motion: dragging and the hit-test

  /** The pointer is strictly inside the button whose left edge is `left`. */
  predicate InButton(l: Layout, left: real, x: real, y: real) {
    x > left && x < left + l.buttonW && y > l.buttonY && y < l.buttonY + l.buttonH
  }

  /** The relative position is outside the unit square (a NaN coordinate is not). */
  predicate Outside(posx: Float, posy: Float) {
    Less(posx, 0.0) || Greater(posx, 1.0) || Less(posy, 0.0) || Greater(posy, 1.0)
  }

  /**
   * The black-point region: the left fifth of the graph for the histogram
   * modes, the bottom two ninths for the waveform.
   */
  predicate InBlackRegion(mode: HistogramType, posx: Float, posy: Float) {
    (Less(posx, 0.2) && mode != Waveform) || (Greater(posy, 7.0 / 9.0) && mode == Waveform)
  }

  /**
   * The region under the pointer while not dragging, checked in the order
   * mode, red, green, blue button, black region, exposure region; `None`
   * when the pointer is outside the widget.
   */
  function HitTest(l: Layout, mode: HistogramType, x: real, y: real, allocW: int, allocH: int): (h: Option<int>)
    ensures h.None? <==> Outside(Quotient(x, allocW), Quotient(y, allocH))
    ensures h.Some? ==> BlackRegion <= h.value <= BlueButton
  {
    var posx := Quotient(x, allocW);
    var posy := Quotient(y, allocH);
    if Outside(posx, posy) then None
    else if InButton(l, l.modeX, x, y) then Some(ModeButton)
    else if InButton(l, l.redX, x, y) then Some(RedButton)
    else if InButton(l, l.greenX, x, y) then Some(GreenButton)
    else if InButton(l, l.blueX, x, y) then Some(BlueButton)
    else if InBlackRegion(mode, posx, posy) then Some(BlackRegion)
    else Some(ExposureRegion)
  }

  /**
   * The hook call of a drag: the pointer's travel since the press, along
   * `y` (upwards) for the waveform and along `x` otherwise, scaled by the
   * allocation, moves the exposure by 4 EV or the black point by 0.1 per
   * widget extent.
   */
  function DragCalls(w: Widget, mode: HistogramType, x: real, y: real, allocW: int, allocH: int): (r: seq<DevCall>)
    ensures |r| <= 1
    ensures w.highlight == ExposureRegion <==> |r| == 1 && r[0].SetExposure?
    ensures w.highlight == BlackRegion <==> |r| == 1 && r[0].SetBlack?
  {
    var diff := if mode == Waveform then w.buttonDownY as real - y else x - w.buttonDownX as real;
    var range := if mode == Waveform then allocH else allocW;
    if w.highlight == ExposureRegion then [SetExposure(Add(Num(w.exposure), Quotient(diff * 4.0, range)))]
    else if w.highlight == BlackRegion then [SetBlack(Sub(Num(w.black), Quotient(diff * 0.1, range)))]
    else []
  }

  /** `_lib_histogram_motion_notify_callback`. */
  function Motion(s: State, hooks: bool, x: real, y: real, allocW: int, allocH: int): (r: Reaction)
    ensures !hooks ==> r == Reaction(s, [])
    ensures r.state == s.(w := s.w.(highlight := r.state.w.highlight))
    ensures s.w.dragging ==> r.state == s
    ensures !s.w.dragging ==> r.calls == []
    ensures hooks && !s.w.dragging && HitTest(s.w.layout, s.mode, x, y, allocW, allocH).Some? ==>
              r.state.w.highlight == HitTest(s.w.layout, s.mode, x, y, allocW, allocH).value
    ensures HitTest(s.w.layout, s.mode, x, y, allocW, allocH).None? ==> r.state == s
  {
    if !hooks then Reaction(s, [])
    else if s.w.dragging then Reaction(s, DragCalls(s.w, s.mode, x, y, allocW, allocH))
    else match HitTest(s.w.layout, s.mode, x, y, allocW, allocH)
      case None => Reaction(s, [])
      case Some(h) => Reaction(s.(w := s.w.(highlight := h)), [])
  }

  // ---------------------------------------------------------------------
  // Button press, release, leave, scroll

  /** The mode button's step `(t + 1) % DT_DEV_HISTOGRAM_N`. */
  function NextMode(t: HistogramType): (r: HistogramType)
    ensures r == if t == ModeCount - 1 then 0 else t + 1
  {
    (t + 1) % ModeCount
  }

  /** The channel buttons negate the toggle of their channel. */
  function Toggle(w: Widget): (r: Widget)
    ensures r == w.(red := r.red, green := r.green, blue := r.blue)
    ensures r.red != w.red <==> w.highlight == RedButton
    ensures r.green != w.green <==> w.highlight == GreenButton
    ensures r.blue != w.blue <==> w.highlight == BlueButton
  {
    if w.highlight == RedButton then w.(red := !w.red)
    else if w.highlight == GreenButton then w.(green := !w.green)
    else if w.highlight == BlueButton then w.(blue := !w.blue)
    else w
  }

  /**
   * A press off the buttons starts a drag at the pointer and snapshots the
   * value about to be dragged, as the getter hook reports it.
   */
  function StartDrag(w: Widget, x: real, y: real, currentExposure: real, currentBlack: real): (r: Widget)
    ensures r.dragging && r.buttonDownX == Trunc(x) && r.buttonDownY == Trunc(y)
    ensures r.exposure == (if w.highlight == ExposureRegion then currentExposure else w.exposure)
    ensures r.black == (if w.highlight == BlackRegion then currentBlack else w.black)
    ensures r == w.(dragging := true, exposure := r.exposure, black := r.black,
                    buttonDownX := r.buttonDownX, buttonDownY := r.buttonDownY)
  {
    w.(dragging := true,
       exposure := if w.highlight == ExposureRegion then currentExposure else w.exposure,
       black := if w.highlight == BlackRegion then currentBlack else w.black,
       buttonDownX := Trunc(x), buttonDownY := Trunc(y))
  }

  /** `_lib_histogram_button_press_callback`. */
  function Press(s: State, hooks: bool, kind: PressKind, x: real, y: real,
                 currentExposure: real, currentBlack: real): (r: Reaction)
    ensures !hooks ==> r == Reaction(s, [])
    ensures hooks && kind == DoubleButtonPress ==> r == Reaction(s, [ResetDefaults])
    ensures r.state.w.highlight == s.w.highlight && r.state.w.layout == s.w.layout
    ensures r.state.mode != s.mode ==> hooks && s.w.highlight == ModeButton && r.state.w == s.w
    ensures r.state.w.dragging != s.w.dragging ==> hooks && !(ModeButton <= s.w.highlight <= BlueButton)
  {
    if !hooks then Reaction(s, [])
    else if kind == DoubleButtonPress then Reaction(s, [ResetDefaults])
    else if s.w.highlight == ModeButton then
      var mode := NextMode(s.mode);
      Reaction(s.(mode := mode), if mode == Waveform then [ProcessPreview] else [])
    else if RedButton <= s.w.highlight <= BlueButton then Reaction(s.(w := Toggle(s.w)), [])
    else Reaction(s.(w := StartDrag(s.w, x, y, currentExposure, currentBlack)), [])
  }

  /** `_lib_histogram_button_release_callback`. */
  function Release(w: Widget): (r: Widget)
    ensures !r.dragging && r == w.(dragging := r.dragging)
  {
    w.(dragging := false)
  }

  /** `_lib_histogram_leave_notify_callback`. */
  function Leave(w: Widget): (r: Widget)
    ensures !r.dragging && r.highlight == NoHighlight
    ensures r == w.(dragging := r.dragging, highlight := r.highlight)
  {
    w.(dragging := false, highlight := NoHighlight)
  }

  /**
   * `_lib_histogram_scroll_callback`: with a unit scroll step `dy`, move the
   * exposure by `-0.15*dy` or the black point by `0.001*dy` from the values
   * the getter hooks report.  The widget record is not touched.
   */
  function Scroll(w: Widget, currentExposure: real, currentBlack: real, unitDelta: Option<int>): (r: seq<DevCall>)
    ensures |r| <= 1
    ensures (|r| == 1 && r[0].SetExposure?) <==> unitDelta.Some? && w.highlight == ExposureRegion
    ensures (|r| == 1 && r[0].SetBlack?) <==> unitDelta.Some? && w.highlight == BlackRegion
    ensures forall e :: e in r ==> (e.SetExposure? && e.exposure.Num?) || (e.SetBlack? && e.black.Num?)
  {
    match unitDelta
    case None => []
    case Some(dy) =>
      if w.highlight == ExposureRegion then [SetExposure(Num(currentExposure - 0.15 * dy as real))]
      else if w.highlight == BlackRegion then [SetBlack(Num(currentBlack + 0.001 * dy as real))]
      else []
  }

  // ---------------------------------------------------------------------
  // Properties

  /** `n` single presses on the mode button with the hooks available. */
  function PressMode(s: State, n: nat): State {
    if n == 0 then s else Press(PressMode(s, n - 1), true, ButtonPress, 0.0, 0.0, 0.0, 0.0).state
  }

  /** Each press on the mode button advances the mode by one, modulo the number of modes. */
  lemma {:induction false} PressModeAdvances(s: State, n: nat)
    requires s.w.highlight == ModeButton
    ensures PressMode(s, n).w == s.w
    ensures PressMode(s, n).mode == (s.mode + n) % ModeCount
  {
    if n > 0 {
      PressModeAdvances(s, n - 1);
      var m := (s.mode + (n - 1)) % ModeCount;
      assert (m + 1) % ModeCount == (s.mode + n) % ModeCount;
    }
  }

  /** `DT_DEV_HISTOGRAM_N` presses on the mode button restore the original mode. */
  lemma ModeCycleRestores(s: State)
    requires s.w.highlight == ModeButton
    ensures PressMode(s, ModeCount) == s
  {
    PressModeAdvances(s, ModeCount);
  }

  /**
   * A press on the mode button changes only the mode, and reprocesses the
   * preview exactly when the new mode is the waveform.
   */
  lemma ModePress(s: State, kind: PressKind, x: real, y: real, ce: real, cb: real)
    requires s.w.highlight == ModeButton && kind != DoubleButtonPress
    ensures var r := Press(s, true, kind, x, y, ce, cb);
            && r.state.w == s.w
            && r.state.mode == (s.mode + 1) % ModeCount
            && (r.calls == [ProcessPreview] <==> r.state.mode == Waveform)
            && (r.calls == [] <==> r.state.mode != Waveform)
  {
  }

  /**
   * A press on a channel button negates exactly that channel's toggle; the
   * mode, drag state and other toggles are unchanged and no hook is called.
   */
  lemma ChannelPress(s: State, kind: PressKind, x: real, y: real, ce: real, cb: real)
    requires RedButton <= s.w.highlight <= BlueButton && kind != DoubleButtonPress
    ensures var r := Press(s, true, kind, x, y, ce, cb);
            && r.calls == []
            && r.state.mode == s.mode
            && r.state.w.dragging == s.w.dragging
            && (r.state.w.red != s.w.red <==> s.w.highlight == RedButton)
            && (r.state.w.green != s.w.green <==> s.w.highlight == GreenButton)
            && (r.state.w.blue != s.w.blue <==> s.w.highlight == BlueButton)
            && r.state.w == s.w.(red := r.state.w.red, green := r.state.w.green, blue := r.state.w.blue)
  {
  }

  /** Two presses on the same channel button restore the state. */
  lemma ChannelPressInvolutive(s: State, kind: PressKind, x: real, y: real, ce: real, cb: real)
    requires RedButton <= s.w.highlight <= BlueButton && kind != DoubleButtonPress
    ensures Press(Press(s, true, kind, x, y, ce, cb).state, true, kind, x, y, ce, cb).state == s
  {
    ChannelPress(s, kind, x, y, ce, cb);
  }

  /**
   * A press anywhere but on the buttons starts a drag at the truncated
   * pointer position, and snapshots the exposure only over the exposure
   * region and the black point only over the black region.
   */
  lemma PressStartsDrag(s: State, kind: PressKind, x: real, y: real, ce: real, cb: real)
    requires !(ModeButton <= s.w.highlight <= BlueButton) && kind != DoubleButtonPress
    ensures var r := Press(s, true, kind, x, y, ce, cb);
            && r.calls == [] && r.state.mode == s.mode
            && r.state.w.dragging
            && r.state.w.buttonDownX == Trunc(x) && r.state.w.buttonDownY == Trunc(y)
            && (r.state.w.exposure != s.w.exposure ==> s.w.highlight == ExposureRegion)
            && (s.w.highlight == ExposureRegion ==> r.state.w.exposure == ce)
            && (r.state.w.black != s.w.black ==> s.w.highlight == BlackRegion)
            && (s.w.highlight == BlackRegion ==> r.state.w.black == cb)
            && r.state.w.highlight == s.w.highlight
            && r.state.w.red == s.w.red && r.state.w.green == s.w.green && r.state.w.blue == s.w.blue
            && r.state.w.layout == s.w.layout
  {
  }

  /** Without the exposure hooks, press and motion change nothing and call nothing. */
  lemma NoHooksNoChange(s: State, kind: PressKind, x: real, y: real, ce: real, cb: real, allocW: int, allocH: int)
    ensures Press(s, false, kind, x, y, ce, cb) == Reaction(s, [])
    ensures Motion(s, false, x, y, allocW, allocH) == Reaction(s, [])
  {
  }

  /** A double click only resets the exposure defaults; no widget field and not the mode changes. */
  lemma DoubleClickOnlyResets(s: State, x: real, y: real, ce: real, cb: real)
    ensures Press(s, true, DoubleButtonPress, x, y, ce, cb) == Reaction(s, [ResetDefaults])
  {
  }

  /**
   * While dragging, motion changes no state at all (in particular not the
   * highlight) and calls the exposure setter over the exposure region, the
   * black setter over the black region and nothing elsewhere.
   */
  lemma DragKeepsState(s: State, x: real, y: real, allocW: int, allocH: int)
    requires s.w.dragging
    ensures var r := Motion(s, true, x, y, allocW, allocH);
            && r.state == s
            && |r.calls| <= 1
            && (s.w.highlight == ExposureRegion <==> |r.calls| == 1 && r.calls[0].SetExposure?)
            && (s.w.highlight == BlackRegion <==> |r.calls| == 1 && r.calls[0].SetBlack?)
  {
  }

  /**
   * Dragging back to where the press happened sets the exposure (or black
   * point) that was snapshotted at the press, provided the allocation is
   * not empty.
   */
  lemma DragBackRestores(s: State, x: real, y: real, allocW: int, allocH: int)
    requires s.w.dragging && allocW != 0 && allocH != 0
    requires if s.mode == Waveform then y == s.w.buttonDownY as real else x == s.w.buttonDownX as real
    ensures s.w.highlight == ExposureRegion ==> Motion(s, true, x, y, allocW, allocH).calls == [SetExposure(Num(s.w.exposure))]
    ensures s.w.highlight == BlackRegion ==> Motion(s, true, x, y, allocW, allocH).calls == [SetBlack(Num(s.w.black))]
  {
  }

  /**
   * Not dragging, motion changes at most the highlight: outside the widget
   * it keeps it, inside it sets it to one of the six regions, and it calls
   * no hook.
   */
  lemma HoverSetsHighlight(s: State, x: real, y: real, allocW: int, allocH: int)
    requires !s.w.dragging
    ensures var r := Motion(s, true, x, y, allocW, allocH);
            && r.calls == []
            && r.state == s.(w := s.w.(highlight := r.state.w.highlight))
            && (Outside(Quotient(x, allocW), Quotient(y, allocH)) ==> r.state.w.highlight == s.w.highlight)
            && (!Outside(Quotient(x, allocW), Quotient(y, allocH)) ==> BlackRegion <= r.state.w.highlight <= BlueButton)
  {
  }

  /** With a non-empty allocation, the unit-square test is the test for the widget's rectangle. */
  lemma OutsideIffOffWidget(x: real, y: real, allocW: int, allocH: int)
    requires allocW > 0 && allocH > 0
    ensures Outside(Quotient(x, allocW), Quotient(y, allocH))
            <==> !(0.0 <= x <= allocW as real && 0.0 <= y <= allocH as real)
  {
    RatioBounds(x, allocW as real);
    RatioBounds(y, allocH as real);
  }

  lemma RatioBounds(x: real, d: real)
    requires d > 0.0
    ensures x / d < 0.0 <==> x < 0.0
    ensures x / d > 1.0 <==> x > d
  {
    var q := x / d;
    assert x == q * d;
    if q < 0.0 { assert q * d < 0.0; }
    if x < 0.0 { assert q < 0.0; }
    if q > 1.0 { assert q * d - d == (q - 1.0) * d; }
    if x > d { assert (q - 1.0) * d == x - d; }
  }

  /**
   * An empty allocation makes the quotient of a zero coordinate NaN, which
   * passes the unit-square test: the pointer then counts as over the widget.
   */
  lemma EmptyAllocationNotOutside(s: State, y: real, allocH: int)
    requires !s.w.dragging && allocH > 0 && 0.0 <= y <= allocH as real
    ensures !Outside(Quotient(0.0, 0), Quotient(y, allocH))
    ensures BlackRegion <= Motion(s, true, 0.0, y, 0, allocH).state.w.highlight <= BlueButton
  {
    RatioBounds(y, allocH as real);
  }

  /**
   * After configure with a non-negative width the four buttons do not
   * overlap: each one ends no later than the next one starts.
   */
  lemma ButtonsApart(width: int)
    requires width >= 0
    ensures var l := ConfigureLayout(width);
            && l.modeX + l.buttonW <= l.redX
            && l.redX + l.buttonW <= l.greenX
            && l.greenX + l.buttonW <= l.blueX
  {
  }

  /**
   * Because the buttons do not overlap, the precedence among them never
   * matters: over a configured widget, the hit-test reports a button
   * exactly when the pointer is inside that button.
   */
  lemma HitTestFindsButton(width: int, mode: HistogramType, x: real, y: real, allocW: int, allocH: int)
    requires width >= 0
    requires !Outside(Quotient(x, allocW), Quotient(y, allocH))
    ensures var l := ConfigureLayout(width);
            var h := HitTest(l, mode, x, y, allocW, allocH);
            && (h == Some(ModeButton) <==> InButton(l, l.modeX, x, y))
            && (h == Some(RedButton) <==> InButton(l, l.redX, x, y))
            && (h == Some(GreenButton) <==> InButton(l, l.greenX, x, y))
            && (h == Some(BlueButton) <==> InButton(l, l.blueX, x, y))
  {
    ButtonsApart(width);
  }

  /**
   * Off the buttons and over the widget, the hit-test splits the graph into
   * the black region and the exposure region.
   */
  lemma HitTestRegions(l: Layout, mode: HistogramType, x: real, y: real, allocW: int, allocH: int)
    requires !Outside(Quotient(x, allocW), Quotient(y, allocH))
    requires !InButton(l, l.modeX, x, y) && !InButton(l, l.redX, x, y)
    requires !InButton(l, l.greenX, x, y) && !InButton(l, l.blueX, x, y)
    ensures var h := HitTest(l, mode, x, y, allocW, allocH);
            && (h == Some(BlackRegion) <==> InBlackRegion(mode, Quotient(x, allocW), Quotient(y, allocH)))
            && (h == Some(ExposureRegion) <==> !InBlackRegion(mode, Quotient(x, allocW), Quotient(y, allocH)))
  {
  }

  /** Release ends a drag: the next motion calls no hook. */
  lemma ReleaseEndsDrag(s: State, x: real, y: real, allocW: int, allocH: int)
    ensures !Release(s.w).dragging
    ensures Motion(s.(w := Release(s.w)), true, x, y, allocW, allocH).calls == []
  {
  }

  /**
   * Leave ends a drag and clears the highlight: scrolling then calls no
   * hook, and a press starts a drag without snapshotting anything.
   */
  lemma LeaveClears(s: State, ce: real, cb: real, dy: Option<int>, x: real, y: real)
    ensures !Leave(s.w).dragging && Leave(s.w).highlight == NoHighlight
    ensures Scroll(Leave(s.w), ce, cb, dy) == []
    ensures var r := Press(s.(w := Leave(s.w)), true, ButtonPress, x, y, ce, cb);
            && r.calls == [] && r.state.w.dragging
            && r.state.w.exposure == s.w.exposure && r.state.w.black == s.w.black
  {
  }

  /** Scrolling one unit up and one unit down round-trips the exposure and the black point. */
  lemma ScrollRoundTrip(w: Widget, ce: real, cb: real, dy: int)
    requires w.highlight == ExposureRegion || w.highlight == BlackRegion
    ensures var first := Scroll(w, ce, cb, Some(dy));
            && |first| == 1
            && (first[0].SetExposure? ==>
                  first[0].exposure.Num? && Scroll(w, first[0].exposure.r, cb, Some(-dy)) == [SetExposure(Num(ce))])
            && (first[0].SetBlack? ==>
                  first[0].black.Num? && Scroll(w, ce, first[0].black.r, Some(-dy)) == [SetBlack(Num(cb))])
  {
  }

  // ---------------------------------------------------------------------
  // The widget and the develop object as mutable records

  /** The develop object, as far as the histogram callbacks use it. */
  class Develop {
    var histogramType: HistogramType
    /** `dt_dev_exposure_hooks_available`. */
    var exposureHooks: bool
    /** The hook calls made so far. */
    var calls: seq<DevCall>

    constructor(histogramType: HistogramType, exposureHooks: bool)
      ensures this.histogramType == histogramType && this.exposureHooks == exposureHooks && calls == []
    {
      this.histogramType := histogramType;
      this.exposureHooks := exposureHooks;
      calls := [];
    }
  }

  /** `dt_lib_histogram_t`, updated in place by the callbacks. */
  class HistogramLib {
    var exposure: real
    var black: real
    var dragging: bool
    var buttonDownX: int
    var buttonDownY: int
    var highlight: int
    var red: bool
    var green: bool
    var blue: bool
    /** `mode_x`, `red_x`, `green_x`, `blue_x`, `button_w`, `button_h`, `button_y`, `button_spacing`. */
    var layout: Layout

    function Snapshot(): Widget
      reads this
    {
      Widget(exposure, black, dragging, buttonDownX, buttonDownY, highlight, red, green, blue, layout)
    }

    /** `gui_init`: a zeroed record with the toggles from the configuration. */
    constructor(red: bool, green: bool, blue: bool)
      ensures Snapshot() == InitialWidget(red, green, blue)
    {
      exposure, black := 0.0, 0.0;
      dragging := false;
      buttonDownX, buttonDownY := 0, 0;
      highlight := NoHighlight;
      this.red, this.green, this.blue := red, green, blue;
      layout := Layout(0.0, 0.0, 0.0, 0.0, 0.0, 0.0, 0.0, 0.0);
    }

    method ConfigureEvent(width: int)
      modifies this
      ensures Snapshot() == Configure(old(Snapshot()), width)
    {
      layout := ConfigureLayout(width);
    }

    method MotionNotify(dev: Develop, x: real, y: real, allocW: int, allocH: int)
      modifies this, dev
      ensures var r := Motion(State(old(Snapshot()), old(dev.histogramType)), old(dev.exposureHooks),
                              x, y, allocW, allocH);
              && Snapshot() == r.state.w && dev.histogramType == r.state.mode
              && dev.calls == old(dev.calls) + r.calls
      ensures dev.exposureHooks == old(dev.exposureHooks)
    {
      if !dev.exposureHooks {
        return;
      }
      if dragging {
        var waveform := dev.histogramType == Waveform;
        var diff := if waveform then buttonDownY as real - y else x - buttonDownX as real;
        var range := if waveform then allocH else allocW;
        if highlight == ExposureRegion {
          dev.calls := dev.calls + [SetExposure(Add(Num(exposure), Quotient(diff * 4.0, range)))];
        } else if highlight == BlackRegion {
          dev.calls := dev.calls + [SetBlack(Sub(Num(black), Quotient(diff * 0.1, range)))];
        }
      } else {
        var posx := Quotient(x, allocW);
        var posy := Quotient(y, allocH);
        if Outside(posx, posy) {
        } else if InButton(layout, layout.modeX, x, y) {
          highlight := ModeButton;
        } else if InButton(layout, layout.redX, x, y) {
          highlight := RedButton;
        } else if InButton(layout, layout.greenX, x, y) {
          highlight := GreenButton;
        } else if InButton(layout, layout.blueX, x, y) {
          highlight := BlueButton;
        } else if InBlackRegion(dev.histogramType, posx, posy) {
          highlight := BlackRegion;
        } else {
          highlight := ExposureRegion;
        }
      }
    }

    method ButtonPressEvent(dev: Develop, kind: PressKind, x: real, y: real, currentExposure: real,
                            currentBlack: real)
      modifies this, dev
      ensures var r := Press(State(old(Snapshot()), old(dev.histogramType)), old(dev.exposureHooks),
                             kind, x, y, currentExposure, currentBlack);
              && Snapshot() == r.state.w && dev.histogramType == r.state.mode
              && dev.calls == old(dev.calls) + r.calls
      ensures dev.exposureHooks == old(dev.exposureHooks)
    {
      if !dev.exposureHooks {
        return;
      }
      if kind == DoubleButtonPress {
        dev.calls := dev.calls + [ResetDefaults];
      } else if highlight == ModeButton {
        dev.histogramType := (dev.histogramType + 1) % ModeCount;
        if dev.histogramType == Waveform {
          dev.calls := dev.calls + [ProcessPreview];
        }
      } else if RedButton <= highlight <= BlueButton {
        ToggleChannel();
      } else {
        BeginDrag(x, y, currentExposure, currentBlack);
      }
    }

    /** The red, green and blue buttons of the press callback. */
    method ToggleChannel()
      modifies this
      ensures Snapshot() == Toggle(old(Snapshot()))
    {
      if highlight == RedButton {
        red := !red;
      } else if highlight == GreenButton {
        green := !green;
      } else if highlight == BlueButton {
        blue := !blue;
      }
    }

    /** The press callback off the buttons. */
    method BeginDrag(x: real, y: real, currentExposure: real, currentBlack: real)
      modifies this
      ensures Snapshot() == StartDrag(old(Snapshot()), x, y, currentExposure, currentBlack)
    {
      dragging := true;
      if highlight == ExposureRegion {
        exposure := currentExposure;
      }
      if highlight == BlackRegion {
        black := currentBlack;
      }
      buttonDownX := Trunc(x);
      buttonDownY := Trunc(y);
    }

    method ScrollEvent(dev: Develop, currentExposure: real, currentBlack: real, unitDelta: Option<int>)
      modifies dev
      ensures dev.calls == old(dev.calls) + Scroll(Snapshot(), currentExposure, currentBlack, unitDelta)
      ensures dev.histogramType == old(dev.histogramType) && dev.exposureHooks == old(dev.exposureHooks)
    {
      if unitDelta.Some? {
        var dy := unitDelta.value;
        if highlight == ExposureRegion {
          dev.calls := dev.calls + [SetExposure(Num(currentExposure - 0.15 * dy as real))];
        } else if highlight == BlackRegion {
          dev.calls := dev.calls + [SetBlack(Num(currentBlack + 0.001 * dy as real))];
        }
      }
    }

    method ButtonReleaseEvent()
      modifies this
      ensures Snapshot() == Release(old(Snapshot()))
    {
      dragging := false;
    }

    method LeaveNotify()
      modifies this
      ensures Snapshot() == Leave(old(Snapshot()))
    {
      dragging := false;
      highlight := NoHighlight;
    }
  }
}
