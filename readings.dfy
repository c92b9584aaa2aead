/**
 * The battery snapshot `currentData` and the shallow `Object.assign` merge that
 * updates it. A slot is `None` when its key is absent; a key whose value is not an
 * object (for example `null`) is a reading whose fields all read as undefined.
 */
module Readings {
  import opened Wrappers
  import opened JsValues

  /** Both earbuds travel in one slot. */
  datatype BudsReading = BudsReading(leftBattery: JsValue, rightBattery: JsValue, leftState: JsValue, rightState: JsValue)

  /** A SteelSeries headset or mouse; `extraBatteryLevel` is carried but never drawn. */
  datatype SteelSeriesReading = SteelSeriesReading(batteryLevel: JsValue, extraBatteryLevel: JsValue, status: JsValue)

  /** The three top-level slots of a snapshot or of a partial update. */
  datatype BatteryData = BatteryData(buds: Option<BudsReading>, headset: Option<SteelSeriesReading>, mouse: Option<SteelSeriesReading>)

  /** `currentData` as the process starts: `{}`. */
  const NoData := BatteryData(None, None, None)

  /** `Object.assign(current, update)`: a slot present in the update replaces the old slot whole. */
  function Merge(current: BatteryData, update: BatteryData): (merged: BatteryData)
    ensures merged.buds == if update.buds.Some? then update.buds else current.buds
    ensures merged.headset == if update.headset.Some? then update.headset else current.headset
    ensures merged.mouse == if update.mouse.Some? then update.mouse else current.mouse
  {
    BatteryData(
      if update.buds.Some? then update.buds else current.buds,
      if update.headset.Some? then update.headset else current.headset,
      if update.mouse.Some? then update.mouse else current.mouse)
  }

  /** No slot can be removed: a slot once present stays present. */
  lemma MergeNeverForgets(current: BatteryData, update: BatteryData)
    ensures current.buds.Some? ==> Merge(current, update).buds.Some?
    ensures current.headset.Some? ==> Merge(current, update).headset.Some?
    ensures current.mouse.Some? ==> Merge(current, update).mouse.Some?
  {
  }

  /** Updates touching different slots can be applied in either order. */
  lemma MergeDisjointCommutes(s: BatteryData, a: BatteryData, b: BatteryData)
    requires a.buds.None? || b.buds.None?
    requires a.headset.None? || b.headset.None?
    requires a.mouse.None? || b.mouse.None?
    ensures Merge(Merge(s, a), b) == Merge(Merge(s, b), a)
  {
  }

  /** Two merges in a row equal one merge of the combined update: the later value wins per slot. */
  lemma MergeAssociative(s: BatteryData, a: BatteryData, b: BatteryData)
    ensures Merge(Merge(s, a), b) == Merge(s, Merge(a, b))
  {
  }

  /** Merging the same update twice changes nothing the second time. */
  lemma MergeIdempotent(s: BatteryData, a: BatteryData)
    ensures Merge(Merge(s, a), a) == Merge(s, a)
  {
  }

  /**
   * A `buds` update replaces both ears at once: a field missing from the new buds
   * object is gone afterwards, whatever the old snapshot held.
   */
  lemma BudsReplacedWhole(s: BatteryData, b: BudsReading)
    ensures Merge(s, BatteryData(Some(b), None, None)).buds.value.rightBattery == b.rightBattery
    ensures Merge(s, BatteryData(Some(b), None, None)).buds.value.rightState == b.rightState
    ensures Merge(s, BatteryData(Some(b), None, None)).headset == s.headset
    ensures Merge(s, BatteryData(Some(b), None, None)).mouse == s.mouse
  {
  }
}
