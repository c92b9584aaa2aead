/**
 * The two status tables of the battery dashboard and the lookup `getDeviceState`
 * that turns a raw status code into the glyph and colour drawn beside an icon.
 */
module BatteryStates {
  import opened Wrappers
  import opened JsValues

  const Red := "#ff1212"
  const Orange := "#ff9f00"
  const Yellow := "#fff52a"
  const Green := "#23fd71"

  const Dot := "●"
  const Question := "?"
  const Square := "■"

  /** What is drawn for a status: a glyph and its fill colour. */
  datatype DeviceState = DeviceState(text: string, color: string)

  /** Earbud status codes: Disconnected, Wearing, Idle, InCase, InClosedCase. */
  const BudsStates: map<int, DeviceState> := map[
    0 := DeviceState(Dot, Red),
    1 := DeviceState(Dot, Yellow),
    2 := DeviceState(Dot, Orange),
    3 := DeviceState(Dot, Green),
    4 := DeviceState(Dot, Green)
  ]

  /** Headset and mouse status codes: Unknown, Charging, Charged, Discharging, Disconnected. */
  const SteelSeriesStates: map<int, DeviceState> := map[
    0 := DeviceState(Question, Red),
    1 := DeviceState(Dot, Green),
    2 := DeviceState(Square, Green),
    3 := DeviceState(Dot, Yellow),
    4 := DeviceState(Dot, Red)
  ]

  /**
   * `getDeviceState`: a number indexes the table through its decimal key, so only a
   * number equal to an integer key finds an entry; any other value gives null.
   */
  function DeviceStateOf(status: JsValue, table: map<int, DeviceState>): (r: Option<DeviceState>)
    ensures r.Some? <==> status.Num? && exists k :: k in table && k as real == status.n
    ensures forall k :: k in table && status == Num(k as real) ==> r == Some(table[k])
    ensures r.Some? ==> r.value in table.Values
  {
    if status.Num? && status.n.Floor as real == status.n && status.n.Floor in table then
      Some(table[status.n.Floor])
    else
      None
  }

  /** The earbud table resolves exactly the codes 0 to 4, to a dot in the listed colours. */
  lemma BudsStatesResolve(x: real)
    ensures DeviceStateOf(Num(x), BudsStates) ==
      if x == 0.0 then Some(DeviceState(Dot, Red))
      else if x == 1.0 then Some(DeviceState(Dot, Yellow))
      else if x == 2.0 then Some(DeviceState(Dot, Orange))
      else if x == 3.0 || x == 4.0 then Some(DeviceState(Dot, Green))
      else None
  {
    if x.Floor as real == x && x.Floor in BudsStates {
      assert x == 0.0 || x == 1.0 || x == 2.0 || x == 3.0 || x == 4.0;
    }
  }

  /** The headset and mouse table resolves exactly the codes 0 to 4. */
  lemma SteelSeriesStatesResolve(x: real)
    ensures DeviceStateOf(Num(x), SteelSeriesStates) ==
      if x == 0.0 then Some(DeviceState(Question, Red))
      else if x == 1.0 then Some(DeviceState(Dot, Green))
      else if x == 2.0 then Some(DeviceState(Square, Green))
      else if x == 3.0 then Some(DeviceState(Dot, Yellow))
      else if x == 4.0 then Some(DeviceState(Dot, Red))
      else None
  {
    if x.Floor as real == x && x.Floor in SteelSeriesStates {
      assert x == 0.0 || x == 1.0 || x == 2.0 || x == 3.0 || x == 4.0;
    }
  }

  /** A status that is absent or not a number has no state, whatever the table. */
  lemma NonNumberHasNoState(status: JsValue, table: map<int, DeviceState>)
    requires !status.Num?
    ensures DeviceStateOf(status, table) == None
  {
  }

  /** Codes just outside the tables, and fractional codes, have no state. */
  lemma OutOfRangeHasNoState()
    ensures DeviceStateOf(Num(-1.0), BudsStates) == None
    ensures DeviceStateOf(Num(5.0), BudsStates) == None
    ensures DeviceStateOf(Num(1.5), BudsStates) == None
    ensures DeviceStateOf(Num(-1.0), SteelSeriesStates) == None
    ensures DeviceStateOf(Num(5.0), SteelSeriesStates) == None
    ensures DeviceStateOf(Num(1.5), SteelSeriesStates) == None
  {
    BudsStatesResolve(-1.0);
    BudsStatesResolve(5.0);
    BudsStatesResolve(1.5);
    SteelSeriesStatesResolve(-1.0);
    SteelSeriesStatesResolve(5.0);
    SteelSeriesStatesResolve(1.5);
  }
}
