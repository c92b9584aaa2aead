/**
 * `createImage64`: load the icons if any slot is unset, merge the update into the
 * snapshot, then render. The snapshot and the icon cache live in a `Monitor`
 * object whose method changes them in place; `Redraw` is the same step on values.
 */
module BatteryMonitor {
  import opened Wrappers
  import opened Failures
  import opened Readings
  import opened Assets
  import opened Gauges

  /** The process-wide state the render step reads and writes. */
  datatype DashState = DashState(current: BatteryData, icons: Icons)

  /** What one call leaves: the new state, the picture or the error, and the assets requested. */
  datatype Redrawn = Redrawn(dash: DashState, image: Result<Picture, Failure>, requested: seq<string>)

  /** One call of `createImage64(update)` on state `d`. */
  function Redraw(d: DashState, update: BatteryData, store: Store): (o: Redrawn)
    // a failed load leaves the snapshot unmerged
    ensures o.image.Failure? ==> o.dash.current == d.current && !AllSet(d.icons) && o.image.error.AssetLoadError?
    // a success merges, leaves every icon set and draws the merged snapshot
    ensures o.image.Success? ==>
      AllSet(o.dash.icons) && o.dash.current == Merge(d.current, update) &&
      o.image.value == Render(o.dash.current, o.dash.icons)
    // with a full cache nothing is loaded and the call cannot fail
    ensures AllSet(d.icons) ==> o.requested == [] && o.dash.icons == d.icons && o.image.Success?
    // the icons and the requests are those of the loading step, and the call fails exactly when it does
    ensures var l := LoadIcons(d.icons, store);
      o.dash.icons == l.icons && o.requested == l.requested &&
      (o.image.Success? <==> l.failure.None?) && (o.image.Failure? ==> l.failure == Some(o.image.error))
    // with every asset readable the call succeeds
    ensures (forall j :: 0 <= j < 4 ==> AssetNames[j] in store) ==> o.image.Success?
  {
    var l := LoadIcons(d.icons, store);
    if l.failure.Some? then
      LoadIconsFailure(d.icons, store);
      Redrawn(DashState(d.current, l.icons), Failure(l.failure.value), l.requested)
    else
      LoadIconsFillsAll(d.icons, store);
      var merged := Merge(d.current, update);
      Redrawn(DashState(merged, l.icons), Success(Render(merged, l.icons)), l.requested)
  }

  /** After one successful render, later renders load nothing and cannot fail. */
  lemma RedrawLoadsOnce(d: DashState, u: BatteryData, store: Store, u2: BatteryData, later: Store)
    requires Redraw(d, u, store).image.Success?
    ensures var o := Redraw(Redraw(d, u, store).dash, u2, later);
      o.requested == [] && o.image.Success? && o.dash.icons == Redraw(d, u, store).dash.icons
  {
  }

  predicate HasIcon(cmds: seq<Command>) {
    exists c :: c in cmds && c.Icon?
  }

  /** A successful render draws an icon in each of the four gauges. */
  lemma RedrawDrawsEveryIcon(d: DashState, u: BatteryData, store: Store)
    requires Redraw(d, u, store).image.Success?
    ensures forall i :: 0 <= i < 4 ==> HasIcon(Redraw(d, u, store).image.value.gauges[i])
  {
    var o := Redraw(d, u, store);
    forall i | 0 <= i < 4 ensures HasIcon(o.image.value.gauges[i]) {
      var cell := Cells[i];
      var icon := CellIcon(o.dash.icons, cell);
      assert icon.Some?;
      GaugeLayout(GridX(cell), GridY(cell), CellPercent(o.dash.current, cell), CellState(o.dash.current, cell), icon);
      var x, y := Origin(GridX(cell)), Origin(GridY(cell));
      assert o.image.value == Render(o.dash.current, o.dash.icons);
      assert o.image.value.gauges[i] == CellCommands(o.dash.current, o.dash.icons, cell);
      assert Icon(icon.value, x + 50, y + 50, 100) in o.image.value.gauges[i];
    }
  }

  /** `currentData` and `DEVICE_IMAGES`, updated in place by `createImage64`. */
  class Monitor {
    var current: BatteryData
    var icons: Icons

    constructor ()
      ensures current == NoData && icons == NoIcons
    {
      current := NoData;
      icons := NoIcons;
    }

    function State(): DashState
      reads this
    {
      DashState(current, icons)
    }

    /** `createImage64(update)`; `requested` records the assets the loader was asked for. */
    method CreateImage(update: BatteryData, store: Store) returns (image: Result<Picture, Failure>, ghost requested: seq<string>)
      modifies this
      ensures var o := Redraw(old(State()), update, store);
        State() == o.dash && image == o.image && requested == o.requested
    {
      requested := [];
      if !AllSet(icons) {
        var a := Fetch(store, LeftBudAsset);
        requested := requested + [LeftBudAsset];
        if a.Failure? {
          image := Failure(a.error);
          return;
        }
        icons := icons.(budsLeft := Some(a.value));
        a := Fetch(store, RightBudAsset);
        requested := requested + [RightBudAsset];
        if a.Failure? {
          image := Failure(a.error);
          return;
        }
        icons := icons.(budsRight := Some(a.value));
        a := Fetch(store, HeadsetAsset);
        requested := requested + [HeadsetAsset];
        if a.Failure? {
          image := Failure(a.error);
          return;
        }
        icons := icons.(headset := Some(a.value));
        a := Fetch(store, MouseAsset);
        requested := requested + [MouseAsset];
        if a.Failure? {
          image := Failure(a.error);
          return;
        }
        icons := icons.(mouse := Some(a.value));
      }
      current := Merge(current, update);
      image := Success(Render(current, icons));
    }
  }
}
