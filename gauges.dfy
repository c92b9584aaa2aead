/**
 * The geometry of `drawData` and `drawBatteryImage`: a 2x2 grid of radial gauges on a
 * 415x415 canvas, each an outer and an inner thin ring, an optional icon, a thick arc
 * whose sweep is the clamped percentage, and an optional status glyph. A render is a
 * list of abstract draw commands per gauge, in canvas coordinates (the translation
 * to the gauge's origin is folded into each command); no pixels are modelled.
 */
module Gauges {
  import opened Wrappers
  import opened JsValues
  import opened BatteryStates
  import opened Readings
  import opened Assets

  const CircleR: int := 100
  const Padding: int := 5
  const CircleStroke: int := 2
  const CircleStrokeBig: int := 25
  const ImageSize: int := 100
  /** Two gauges and three paddings across, and the same down. */
  const W: int := CircleR * 4 + Padding * 3
  const H: int := CircleR * 4 + Padding * 3

  /** Radius of the outer thin ring: inset by half its stroke. */
  const InsetRadius: real := CircleR as real - CircleStroke as real / 2.0

  /** The canvas angle of 12 o'clock (`-0.5 * Math.PI`), in turns. */
  const TwelveOClock: real := -0.25

  /** How far the arc turns clockwise, in full turns; NaN draws no arc. */
  datatype Sweep = Turns(fraction: real) | NotANumber

  datatype Command =
    /** A full circle stroked around (cx, cy). */
    | Ring(cx: int, cy: int, radius: real, width: int)
    /** An image drawn into the square of side `size` at (x, y). */
    | Icon(image: Image, x: int, y: int, size: int)
    /** A stroked arc from angle `start` (in turns) sweeping clockwise. */
    | Arc(cx: int, cy: int, radius: real, width: int, start: real, sweep: Sweep)
    /** Text centred at (x, y), filled in `color`. */
    | Glyph(text: string, color: string, x: int, y: int)

  /** The four gauges, in the order `drawData` draws them. */
  datatype Cell = BudsLeft | BudsRight | Headset | Mouse

  const Cells := [BudsLeft, BudsRight, Headset, Mouse]

  function GridX(c: Cell): nat { if c == BudsLeft || c == Headset then 0 else 1 }

  function GridY(c: Cell): nat { if c == BudsLeft || c == BudsRight then 0 else 1 }

  /** Top-left corner, along one axis, of the gauge at grid position g. */
  function Origin(g: nat): int { Padding * (g + 1) + CircleR * 2 * g }

  /** A canvas of W x H with the commands of each gauge, in `Cells` order. */
  datatype Picture = Picture(width: int, height: int, gauges: seq<seq<Command>>)

  /** `percent || 0` converted to a number as `Math.max` does; None stands for NaN. */
  function PercentNumber(p: JsValue): (r: Option<real>)
    ensures Falsy(p) ==> r == Some(0.0)
    ensures p.Num? ==> r == Some(p.n)
  {
    match p
    case Undefined => Some(0.0)
    case Null => Some(0.0)
    case Bool(b) => Some(if b then 1.0 else 0.0)
    case Num(x) => Some(x)
    case Str(s) => if s == "" then Some(0.0) else None
    case Compound => None
  }

  /** `Math.min(100, Math.max(0, x))`. */
  function Clamp(x: real): (c: real)
    ensures 0.0 <= c <= 100.0
    ensures 0.0 <= x <= 100.0 ==> c == x
    ensures x < 0.0 ==> c == 0.0
    ensures x > 100.0 ==> c == 100.0
  {
    if x < 0.0 then 0.0 else if x > 100.0 then 100.0 else x
  }

  /** The fraction of a turn the percentage arc covers. */
  function SweepOf(percent: JsValue): (s: Sweep)
    ensures s.Turns? ==> 0.0 <= s.fraction <= 1.0
    ensures s.NotANumber? <==> percent.Compound? || (percent.Str? && percent.s != "")
    ensures Falsy(percent) ==> s == Turns(0.0)
    ensures percent.Num? && 0.0 <= percent.n <= 100.0 ==> s == Turns(percent.n / 100.0)
    ensures percent.Num? && percent.n < 0.0 ==> s == Turns(0.0)
    ensures percent.Num? && percent.n > 100.0 ==> s == Turns(1.0)
  {
    match PercentNumber(percent)
    case None => NotANumber
    case Some(x) => Turns(Clamp(x) / 100.0)
  }

  /** Out-of-range percentages: below range draws as 0, above range as 100. */
  lemma SweepClampsOutOfRange()
    ensures SweepOf(Num(-10.0)) == SweepOf(Num(0.0)) == SweepOf(Undefined) == Turns(0.0)
    ensures SweepOf(Num(150.0)) == SweepOf(Num(100.0)) == Turns(1.0)
  {
  }

  /** The disc of radius `extent` around (cx, cy) lies in the square at (x0, y0) of side `size`. */
  predicate DiscWithin(cx: int, cy: int, extent: real, x0: int, y0: int, size: int) {
    x0 as real <= cx as real - extent && cx as real + extent <= (x0 + size) as real &&
    y0 as real <= cy as real - extent && cy as real + extent <= (y0 + size) as real
  }

  /** Everything `c` paints lies in the square at (x0, y0) of side `size` (for a glyph, its anchor). */
  predicate WithinBox(c: Command, x0: int, y0: int, size: int) {
    match c
    case Ring(cx, cy, r, w) => DiscWithin(cx, cy, r + w as real / 2.0, x0, y0, size)
    case Arc(cx, cy, r, w, _, _) => DiscWithin(cx, cy, r + w as real / 2.0, x0, y0, size)
    case Icon(_, x, y, s) => x0 <= x && x + s <= x0 + size && y0 <= y && y + s <= y0 + size
    case Glyph(_, _, x, y) => x0 <= x <= x0 + size && y0 <= y <= y0 + size
  }

  /** `drawBatteryImage(ctx, gx, gy, percent, state, icon)`; `GaugeLayout` states what it draws. */
  function GaugeCommands(gx: nat, gy: nat, percent: JsValue, state: Option<DeviceState>, icon: Option<Image>): seq<Command> {
    var x, y := Origin(gx), Origin(gy);
    var cx, cy := x + CircleR, y + CircleR;
    var iconPos := CircleR - ImageSize / 2;
    var textPos := CircleR - ImageSize / 2 + 15;
    [Ring(cx, cy, InsetRadius, CircleStroke), Ring(cx, cy, InsetRadius - CircleStrokeBig as real, CircleStroke)]
    + (if icon.Some? then [Icon(icon.value, x + iconPos, y + iconPos, ImageSize)] else [])
    + [Arc(cx, cy, InsetRadius - CircleStrokeBig as real / 2.0, CircleStrokeBig, TwelveOClock, SweepOf(percent))]
    + (if state.Some? then [Glyph(state.value.text, state.value.color, x + textPos, y + textPos)] else [])
  }

  /** The commands one gauge is made of, with the source's geometry. */
  lemma GaugeLayout(gx: nat, gy: nat, percent: JsValue, state: Option<DeviceState>, icon: Option<Image>)
    ensures var r, x, y := GaugeCommands(gx, gy, percent, state, icon), Origin(gx), Origin(gy);
      var outer, inner := Ring(x + 100, y + 100, 99.0, 2), Ring(x + 100, y + 100, 74.0, 2);
      var arc := Arc(x + 100, y + 100, 86.5, 25, TwelveOClock, SweepOf(percent));
      // the two thin rings first, then the thick arc, which fills the band between them
      r[0] == outer && r[1] == inner && arc in r &&
      (forall c :: c in r ==> c == outer || c == inner || c == arc || c.Icon? || c.Glyph?) &&
      arc.radius - arc.width as real / 2.0 == inner.radius && arc.radius + arc.width as real / 2.0 == outer.radius &&
      // an icon only if one is cached, at inset 50 and size 100
      (icon.Some? ==> Icon(icon.value, x + 50, y + 50, 100) in r) &&
      (forall c :: c in r && c.Icon? ==> icon.Some? && c == Icon(icon.value, x + 50, y + 50, 100)) &&
      // a glyph only for a known status, at inset 65 in the status's colour
      (state.Some? ==> Glyph(state.value.text, state.value.color, x + 65, y + 65) in r) &&
      (forall c :: c in r && c.Glyph? ==> state.Some? && c == Glyph(state.value.text, state.value.color, x + 65, y + 65)) &&
      |r| == 3 + (if icon.Some? then 1 else 0) + (if state.Some? then 1 else 0) &&
      // painted in this order: rings, icon, arc, then the glyph over the icon
      r == [outer, inner] + (if icon.Some? then [Icon(icon.value, x + 50, y + 50, 100)] else []) + [arc] +
        (if state.Some? then [Glyph(state.value.text, state.value.color, x + 65, y + 65)] else [])
  {
  }

  /** Every command of a gauge lies in its 200 x 200 box. */
  lemma GaugeFitsBox(gx: nat, gy: nat, percent: JsValue, state: Option<DeviceState>, icon: Option<Image>)
    ensures forall c :: c in GaugeCommands(gx, gy, percent, state, icon) ==> WithinBox(c, Origin(gx), Origin(gy), 2 * CircleR)
  {
    GaugeLayout(gx, gy, percent, state, icon);
  }

  /** The percentage `drawData` passes for a cell (`data.buds?.leftBattery` and so on). */
  function CellPercent(data: BatteryData, c: Cell): JsValue {
    match c
    case BudsLeft => if data.buds.Some? then data.buds.value.leftBattery else Undefined
    case BudsRight => if data.buds.Some? then data.buds.value.rightBattery else Undefined
    case Headset => if data.headset.Some? then data.headset.value.batteryLevel else Undefined
    case Mouse => if data.mouse.Some? then data.mouse.value.batteryLevel else Undefined
  }

  /** The resolved status `drawData` passes for a cell. */
  function CellState(data: BatteryData, c: Cell): Option<DeviceState> {
    match c
    case BudsLeft => DeviceStateOf(if data.buds.Some? then data.buds.value.leftState else Undefined, BudsStates)
    case BudsRight => DeviceStateOf(if data.buds.Some? then data.buds.value.rightState else Undefined, BudsStates)
    case Headset => DeviceStateOf(if data.headset.Some? then data.headset.value.status else Undefined, SteelSeriesStates)
    case Mouse => DeviceStateOf(if data.mouse.Some? then data.mouse.value.status else Undefined, SteelSeriesStates)
  }

  /** The cached icon of a cell. */
  function CellIcon(icons: Icons, c: Cell): Option<Image> {
    match c
    case BudsLeft => icons.budsLeft
    case BudsRight => icons.budsRight
    case Headset => icons.headset
    case Mouse => icons.mouse
  }

  function CellCommands(data: BatteryData, icons: Icons, c: Cell): seq<Command> {
    GaugeCommands(GridX(c), GridY(c), CellPercent(data, c), CellState(data, c), CellIcon(icons, c))
  }

  /** `drawData` on a fresh canvas: the four gauges, in `Cells` order. */
  function Render(data: BatteryData, icons: Icons): (p: Picture)
    ensures p.width == 415 && p.height == 415 && |p.gauges| == 4
    ensures forall i :: 0 <= i < 4 ==> p.gauges[i] == CellCommands(data, icons, Cells[i])
    // every command stays inside the canvas with a margin of one padding
    ensures forall i, c :: 0 <= i < 4 && c in p.gauges[i] ==> WithinBox(c, 5, 5, 405)
  {
    var p := Picture(W, H, seq(4, i requires 0 <= i < 4 => CellCommands(data, icons, Cells[i])));
    forall i, c | 0 <= i < 4 && c in p.gauges[i] ensures WithinBox(c, 5, 5, 405) {
      var cell := Cells[i];
      assert c in GaugeCommands(GridX(cell), GridY(cell), CellPercent(data, cell), CellState(data, cell), CellIcon(icons, cell));
      GaugeFitsBox(GridX(cell), GridY(cell), CellPercent(data, cell), CellState(data, cell), CellIcon(icons, cell));
      BoxInsideCanvas(c, GridX(cell), GridY(cell));
    }
    p
  }

  lemma BoxInsideCanvas(c: Command, gx: nat, gy: nat)
    requires gx < 2 && gy < 2
    requires WithinBox(c, Origin(gx), Origin(gy), 2 * CircleR)
    ensures WithinBox(c, 5, 5, 405)
  {
  }

  /** The grid assignment and where the four 200 x 200 boxes start. */
  lemma CellOrigins()
    ensures Origin(GridX(BudsLeft)) == 5 && Origin(GridY(BudsLeft)) == 5
    ensures Origin(GridX(BudsRight)) == 210 && Origin(GridY(BudsRight)) == 5
    ensures Origin(GridX(Headset)) == 5 && Origin(GridY(Headset)) == 210
    ensures Origin(GridX(Mouse)) == 210 && Origin(GridY(Mouse)) == 210
  {
  }

  /** Two different cells' boxes do not overlap: they are apart along some axis. */
  lemma CellBoxesDisjoint(a: Cell, b: Cell)
    requires a != b
    ensures Origin(GridX(a)) + 2 * CircleR < Origin(GridX(b)) || Origin(GridX(b)) + 2 * CircleR < Origin(GridX(a)) ||
            Origin(GridY(a)) + 2 * CircleR < Origin(GridY(b)) || Origin(GridY(b)) + 2 * CircleR < Origin(GridY(a))
  {
  }

  /** A gauge depends only on its own slot of the snapshot and its own icon. */
  lemma CellDependsOnItsSlot(d1: BatteryData, i1: Icons, d2: BatteryData, i2: Icons, c: Cell)
    requires CellIcon(i1, c) == CellIcon(i2, c)
    requires c == BudsLeft || c == BudsRight ==> d1.buds == d2.buds
    requires c == Headset ==> d1.headset == d2.headset
    requires c == Mouse ==> d1.mouse == d2.mouse
    ensures CellCommands(d1, i1, c) == CellCommands(d2, i2, c)
  {
  }

  /** Merging an update redraws only the gauges of the slots it carries. */
  lemma MergeRedrawsOnlyUpdatedGauges(s: BatteryData, u: BatteryData, icons: Icons)
    ensures u.buds.None? ==> forall i :: 0 <= i < 2 ==> Render(Merge(s, u), icons).gauges[i] == Render(s, icons).gauges[i]
    ensures u.headset.None? ==> Render(Merge(s, u), icons).gauges[2] == Render(s, icons).gauges[2]
    ensures u.mouse.None? ==> Render(Merge(s, u), icons).gauges[3] == Render(s, icons).gauges[3]
  {
    if u.buds.None? {
      CellDependsOnItsSlot(Merge(s, u), icons, s, icons, BudsLeft);
      CellDependsOnItsSlot(Merge(s, u), icons, s, icons, BudsRight);
    }
    if u.headset.None? {
      CellDependsOnItsSlot(Merge(s, u), icons, s, icons, Headset);
    }
    if u.mouse.None? {
      CellDependsOnItsSlot(Merge(s, u), icons, s, icons, Mouse);
    }
  }

  /**
   * A buds update `{"leftBattery": 80, "leftState": 3}` draws the left gauge at 80% with the
   * green InCase dot, and the right gauge, whose fields it dropped, empty and without a glyph.
   */
  lemma LeftBudExample(s: BatteryData, icons: Icons)
    ensures var u := BatteryData(Some(BudsReading(Num(80.0), Undefined, Num(3.0), Undefined)), None, None);
      var p := Render(Merge(s, u), icons);
      Arc(105, 105, 86.5, 25, TwelveOClock, Turns(0.8)) in p.gauges[0] &&
      Glyph(Dot, Green, 70, 70) in p.gauges[0] &&
      Arc(310, 105, 86.5, 25, TwelveOClock, Turns(0.0)) in p.gauges[1] &&
      (forall c :: c in p.gauges[1] ==> !c.Glyph?)
  {
    var u := BatteryData(Some(BudsReading(Num(80.0), Undefined, Num(3.0), Undefined)), None, None);
    BudsStatesResolve(3.0);
    assert CellState(Merge(s, u), BudsLeft) == Some(DeviceState(Dot, Green));
    assert CellState(Merge(s, u), BudsRight) == None;
  }
}
