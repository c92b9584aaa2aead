/**
 * The icon cache `DEVICE_IMAGES` and the loading step at the top of `createImage64`:
 * while any of the four slots is unset, all four assets are (re)loaded in order,
 * and the first asset that fails stops the loading with an error.
 */
module Assets {
  import opened Wrappers
  import opened Failures

  /** A decoded raster image. */
  datatype Image = Image(width: nat, height: nat, pixels: seq<bv8>)

  /**
   * The asset directory as `loadAssetImage` sees it: a name in the map decodes to its
   * image; a name that is missing stands for a file that cannot be read (a file that
   * reads but does not decode is taken the same way).
   */
  type Store = map<string, Image>

  /** The four icon slots, in the order they are loaded. */
  datatype Icons = Icons(budsLeft: Option<Image>, budsRight: Option<Image>, headset: Option<Image>, mouse: Option<Image>)

  const NoIcons := Icons(None, None, None, None)

  const LeftBudAsset := "left-bud.png"
  const RightBudAsset := "right-bud.png"
  const HeadsetAsset := "headset.png"
  const MouseAsset := "mouse.png"

  /** Asset name of slot k. */
  const AssetNames := [LeftBudAsset, RightBudAsset, HeadsetAsset, MouseAsset]

  /** `loadAssetImage(name)`: the decoded image or the error it rejects with. */
  function Fetch(store: Store, name: string): (r: Result<Image, Failure>)
    ensures r.Success? <==> name in store
    ensures r.Success? ==> r.value == store[name]
    ensures r.Failure? ==> r.error == AssetLoadError(name)
  {
    if name in store then Success(store[name]) else Failure(AssetLoadError(name))
  }

  function Slot(icons: Icons, k: nat): Option<Image>
    requires k < 4
  {
    match k
    case 0 => icons.budsLeft
    case 1 => icons.budsRight
    case 2 => icons.headset
    case 3 => icons.mouse
  }

  function WithSlot(icons: Icons, k: nat, image: Image): (r: Icons)
    requires k < 4
    ensures Slot(r, k) == Some(image)
    ensures forall j :: 0 <= j < 4 && j != k ==> Slot(r, j) == Slot(icons, j)
  {
    match k
    case 0 => icons.(budsLeft := Some(image))
    case 1 => icons.(budsRight := Some(image))
    case 2 => icons.(headset := Some(image))
    case 3 => icons.(mouse := Some(image))
  }

  /** No slot of the cache is null. */
  predicate AllSet(icons: Icons) {
    icons.budsLeft.Some? && icons.budsRight.Some? && icons.headset.Some? && icons.mouse.Some?
  }

  /** What one pass of the loading step leaves: the slots, the error if any, and the names requested. */
  datatype IconLoad = IconLoad(icons: Icons, failure: Option<Failure>, requested: seq<string>)

  /** Load slots k, k+1, ... in order until one fails. */
  function LoadFrom(icons: Icons, store: Store, k: nat): (l: IconLoad)
    requires k <= 4
    decreases 4 - k
    ensures k + |l.requested| <= 4 && l.requested == AssetNames[k..k + |l.requested|]
    ensures l.failure.None? ==> k + |l.requested| == 4
    ensures l.failure.None? <==> forall j :: k <= j < 4 ==> AssetNames[j] in store
    ensures l.failure.Some? ==>
      |l.requested| > 0 && AssetNames[k + |l.requested| - 1] !in store &&
      l.failure == Some(AssetLoadError(AssetNames[k + |l.requested| - 1])) &&
      forall j :: k <= j < k + |l.requested| - 1 ==> AssetNames[j] in store
    ensures forall j :: k <= j < k + |l.requested| && AssetNames[j] in store ==>
      Slot(l.icons, j) == Some(store[AssetNames[j]])
    ensures forall j :: 0 <= j < 4 && !(k <= j < k + |l.requested| && AssetNames[j] in store) ==>
      Slot(l.icons, j) == Slot(icons, j)
  {
    if k == 4 then
      IconLoad(icons, None, [])
    else
      match Fetch(store, AssetNames[k])
      case Failure(e) => IconLoad(icons, Some(e), [AssetNames[k]])
      case Success(image) =>
        var rest := LoadFrom(WithSlot(icons, k, image), store, k + 1);
        IconLoad(rest.icons, rest.failure, [AssetNames[k]] + rest.requested)
  }

  /** The loading step: nothing happens once every slot is set. */
  function LoadIcons(icons: Icons, store: Store): (l: IconLoad)
    ensures AllSet(icons) ==> l == IconLoad(icons, None, [])
    ensures !AllSet(icons) ==> l == LoadFrom(icons, store, 0)
  {
    if AllSet(icons) then IconLoad(icons, None, []) else LoadFrom(icons, store, 0)
  }

  /** A load that raises no error leaves every slot set, with the store's images. */
  lemma LoadIconsFillsAll(icons: Icons, store: Store)
    requires LoadIcons(icons, store).failure.None?
    ensures AllSet(LoadIcons(icons, store).icons)
    ensures !AllSet(icons) ==> LoadIcons(icons, store).requested == AssetNames
  {
    var l := LoadIcons(icons, store);
    if !AllSet(icons) {
      assert forall j :: 0 <= j < 4 ==> Slot(l.icons, j) == Some(store[AssetNames[j]]);
      assert Slot(l.icons, 0).Some? && Slot(l.icons, 1).Some? && Slot(l.icons, 2).Some? && Slot(l.icons, 3).Some?;
    }
  }

  /** After one successful load, later loads ask for nothing, whatever the store then holds. */
  lemma LoadIconsOnce(icons: Icons, store: Store, later: Store)
    requires LoadIcons(icons, store).failure.None?
    ensures LoadIcons(LoadIcons(icons, store).icons, later) == IconLoad(LoadIcons(icons, store).icons, None, [])
  {
    LoadIconsFillsAll(icons, store);
  }

  /** A failing load requested a prefix of the asset list, ending with the missing asset. */
  lemma LoadIconsFailure(icons: Icons, store: Store)
    requires LoadIcons(icons, store).failure.Some?
    ensures var l := LoadIcons(icons, store);
      !AllSet(icons) && 0 < |l.requested| <= 4 && l.requested == AssetNames[..|l.requested|] &&
      l.failure == Some(AssetLoadError(l.requested[|l.requested| - 1])) &&
      l.requested[|l.requested| - 1] !in store
  {
  }
}
