/**
 * The volume-to-icon lookup for container presets: seven icons ordered by
 * container size, one upper volume bound per icon, and the lookups by name
 * that turn a stored (type, name) pair back into an icon resource.
 */
module IconMapper {
  import opened Wrappers
  import opened Doubles

  /** Material vector icon or drawable resource. */
  datatype IconType = Vector | Drawable

  /** `IconType.name`, the spelling stored in the database. */
  function TypeName(t: IconType): string {
    match t
    case Vector => "VECTOR"
    case Drawable => "DRAWABLE"
  }

  /** The one Material vector icon in use. */
  datatype VectorIcon = LocalCafeIcon

  /** The six drawable resources (`R.drawable.*`). */
  datatype DrawableRes =
    | GlassCupRes | WaterLossRes | WaterMediumRes | WaterFullRes | WaterBottleRes | WaterBottleLargeRes

  /** An icon: its type, its stored name, and the resource that draws it. */
  datatype ContainerIcon = ContainerIcon(
    iconType: IconType,
    name: string,
    vectorIcon: Option<VectorIcon>,
    drawableRes: Option<DrawableRes>)

  /** All icons, smallest container first. */
  const IconsByVolume: seq<ContainerIcon> := [
    ContainerIcon(Vector, "LocalCafe", Some(LocalCafeIcon), None),
    ContainerIcon(Drawable, "glass_cup", None, Some(GlassCupRes)),
    ContainerIcon(Drawable, "water_loss", None, Some(WaterLossRes)),
    ContainerIcon(Drawable, "water_medium", None, Some(WaterMediumRes)),
    ContainerIcon(Drawable, "water_full", None, Some(WaterFullRes)),
    ContainerIcon(Drawable, "water_bottle", None, Some(WaterBottleRes)),
    ContainerIcon(Drawable, "water_bottle_large", None, Some(WaterBottleLargeRes))
  ]

  /** Upper volume bound (inclusive) paired with the index of its icon. */
  const VolumeThresholds: seq<(real, nat)> := [
    (125.0, 0), (162.0, 1), (187.0, 2), (250.0, 3), (400.0, 4), (750.0, 5), (DoubleMax, 6)
  ]

  /** The scan of `getIconForVolume` from threshold `k` on: the icon index of
      the first bound the volume does not exceed, or the last icon when it
      exceeds them all (only +Infinity and NaN do). */
  function IconIndexFrom(volume: Double, k: nat): (i: nat)
    requires k <= |VolumeThresholds|
    ensures i < |IconsByVolume|
    decreases |VolumeThresholds| - k
  {
    if k == |VolumeThresholds| then |IconsByVolume| - 1
    else if AtMost(volume, VolumeThresholds[k].0) then VolumeThresholds[k].1
    else IconIndexFrom(volume, k + 1)
  }

  function IconIndexForVolume(volume: Double): (i: nat)
    ensures i < |IconsByVolume|
  {
    IconIndexFrom(volume, 0)
  }

  /** `getIconForVolume`: total, always one of the listed icons. */
  function IconForVolume(volume: Double): (icon: ContainerIcon)
    ensures icon in IconsByVolume
  {
    IconsByVolume[IconIndexForVolume(volume)]
  }

  /** The band table: which icon every finite volume gets. */
  function Band(v: real): nat {
    if v <= 125.0 then 0
    else if v <= 162.0 then 1
    else if v <= 187.0 then 2
    else if v <= 250.0 then 3
    else if v <= 400.0 then 4
    else if v <= 750.0 then 5
    else 6
  }

  /** The scan agrees with the band table for every finite volume. */
  lemma {:induction false} IconIndexMatchesBands(v: real)
    ensures IconIndexForVolume(Finite(v)) == Band(v)
  {
    var d := Finite(v);
    assert IconIndexFrom(d, 5) == (if v <= 750.0 then 5 else 6);
    assert IconIndexFrom(d, 3) == (if v <= 250.0 then 3 else if v <= 400.0 then 4 else IconIndexFrom(d, 5));
    assert IconIndexFrom(d, 0) == (if v <= 125.0 then 0 else if v <= 162.0 then 1 else if v <= 187.0 then 2 else IconIndexFrom(d, 3));
  }

  /** The non-finite volumes: -Infinity gets the smallest icon; +Infinity and
      NaN exceed every bound and get the largest. */
  lemma {:induction false} NonFiniteVolumes()
    ensures IconIndexForVolume(NegInf) == 0
    ensures IconIndexForVolume(PosInf) == 6
    ensures IconIndexForVolume(NaN) == 6
  {
    assert IconIndexFrom(PosInf, 3) == 6;
    assert IconIndexFrom(NaN, 3) == 6;
  }

  /** Larger volumes never get a smaller icon. */
  lemma MonotoneInVolume(v1: real, v2: real)
    requires v1 <= v2
    ensures IconIndexForVolume(Finite(v1)) <= IconIndexForVolume(Finite(v2))
  {
    IconIndexMatchesBands(v1);
    IconIndexMatchesBands(v2);
  }

  /** Zero and negative volumes get the coffee cup, the first icon. */
  lemma NonPositiveIsCoffeeCup(v: real)
    requires v <= 0.0
    ensures IconForVolume(Finite(v)) == IconsByVolume[0]
    ensures IconForVolume(Finite(v)).name == "LocalCafe"
  {
    IconIndexMatchesBands(v);
  }

  /** Only the first icon is a vector icon; the other six are drawables, and
      every icon carries exactly the resource its type calls for. */
  lemma IconTypesByPosition()
    ensures forall k :: 0 <= k < |IconsByVolume| ==> (IconsByVolume[k].iconType == Vector <==> k == 0)
    ensures forall k :: 0 <= k < |IconsByVolume| ==>
              (IconsByVolume[k].vectorIcon.Some? <==> IconsByVolume[k].iconType == Vector)
              && (IconsByVolume[k].drawableRes.Some? <==> IconsByVolume[k].iconType == Drawable)
  {
  }

  /** `List.find` over the icons from position `k`. */
  function FindIconFrom(iconType: string, iconName: string, k: nat): (r: Option<ContainerIcon>)
    requires k <= |IconsByVolume|
    ensures r.Some? ==> r.value in IconsByVolume[k..]
                        && TypeName(r.value.iconType) == iconType && r.value.name == iconName
    ensures r.None? ==> forall j :: k <= j < |IconsByVolume| ==>
                          !(TypeName(IconsByVolume[j].iconType) == iconType && IconsByVolume[j].name == iconName)
    decreases |IconsByVolume| - k
  {
    if k == |IconsByVolume| then None
    else if TypeName(IconsByVolume[k].iconType) == iconType && IconsByVolume[k].name == iconName then
      Some(IconsByVolume[k])
    else FindIconFrom(iconType, iconName, k + 1)
  }

  /** `getIconByName`: the listed icon with this stored type and name, if any. */
  function IconByName(iconType: string, iconName: string): (r: Option<ContainerIcon>)
    ensures r.Some? ==> r.value in IconsByVolume
                        && TypeName(r.value.iconType) == iconType && r.value.name == iconName
    ensures r.None? <==> forall j :: 0 <= j < |IconsByVolume| ==>
                          !(TypeName(IconsByVolume[j].iconType) == iconType && IconsByVolume[j].name == iconName)
  {
    FindIconFrom(iconType, iconName, 0)
  }

  /** The find stops at the first match: when position `j` matches and no
      icon between `i` and `j` has the same name, the search from `i` finds `j`. */
  lemma {:induction false} FindIconReaches(iconType: string, iconName: string, i: nat, j: nat)
    requires i <= j < |IconsByVolume|
    requires TypeName(IconsByVolume[j].iconType) == iconType && IconsByVolume[j].name == iconName
    requires forall m :: i <= m < j ==> IconsByVolume[m].name != iconName
    ensures FindIconFrom(iconType, iconName, i) == Some(IconsByVolume[j])
    decreases j - i
  {
    if i < j {
      FindIconReaches(iconType, iconName, i + 1, j);
    }
  }

  /** Looking an icon up by its own stored type and name gives it back. */
  lemma IconByNameRoundTrip(k: nat)
    requires k < |IconsByVolume|
    ensures IconByName(TypeName(IconsByVolume[k].iconType), IconsByVolume[k].name) == Some(IconsByVolume[k])
  {
    var names := ["LocalCafe", "glass_cup", "water_loss", "water_medium", "water_full", "water_bottle", "water_bottle_large"];
    assert forall m :: 0 <= m < |IconsByVolume| ==> IconsByVolume[m].name == names[m];
    assert forall m :: 0 <= m < k ==> names[m] != names[k];
    FindIconReaches(TypeName(IconsByVolume[k].iconType), IconsByVolume[k].name, 0, k);
  }

  /** A pair that is not listed finds nothing, e.g. a drawable's name with the vector type. */
  lemma IconByNameMismatchedType()
    ensures IconByName("VECTOR", "glass_cup") == None
    ensures IconByName("DRAWABLE", "LocalCafe") == None
  {
    IconTypesByPosition();
    assert "VECTOR"[0] != "DRAWABLE"[0];
    assert "glass_cup"[0] != "LocalCafe"[0];
    assert forall j :: 0 <= j < |IconsByVolume| ==>
      !(TypeName(IconsByVolume[j].iconType) == "VECTOR" && IconsByVolume[j].name == "glass_cup");
    assert forall j :: 0 <= j < |IconsByVolume| ==>
      !(TypeName(IconsByVolume[j].iconType) == "DRAWABLE" && IconsByVolume[j].name == "LocalCafe");
  }

  /** `getDrawableResId`. */
  function DrawableResId(iconName: string): (r: Option<DrawableRes>)
    ensures forall k :: 0 <= k < |IconsByVolume| && IconsByVolume[k].name == iconName
                        ==> r == IconsByVolume[k].drawableRes
  {
    match iconName
    case "glass_cup" => Some(GlassCupRes)
    case "water_loss" => Some(WaterLossRes)
    case "water_medium" => Some(WaterMediumRes)
    case "water_full" => Some(WaterFullRes)
    case "water_bottle" => Some(WaterBottleRes)
    case "water_bottle_large" => Some(WaterBottleLargeRes)
    case _ => None
  }

  /** `getVectorIcon`. */
  function VectorIconFor(iconName: string): (r: Option<VectorIcon>)
    ensures forall k :: 0 <= k < |IconsByVolume| && IconsByVolume[k].name == iconName
                        ==> r == IconsByVolume[k].vectorIcon
  {
    match iconName
    case "LocalCafe" => Some(LocalCafeIcon)
    case _ => None
  }

  /** `getDrawableResId` is non-null exactly for the names of the six drawable icons. */
  lemma DrawableResIdExactlyForDrawables(iconName: string)
    ensures DrawableResId(iconName).Some? <==>
            exists k :: 0 <= k < |IconsByVolume| && IconsByVolume[k].iconType == Drawable
                        && IconsByVolume[k].name == iconName
  {
    var k := if iconName == "glass_cup" then 1
             else if iconName == "water_loss" then 2
             else if iconName == "water_medium" then 3
             else if iconName == "water_full" then 4
             else if iconName == "water_bottle" then 5
             else 6;
    if DrawableResId(iconName).Some? {
      assert IconsByVolume[k].name == iconName;
    }
  }

  /** `getVectorIcon` is non-null only for "LocalCafe", the one vector icon. */
  lemma VectorIconOnlyForLocalCafe(iconName: string)
    ensures VectorIconFor(iconName).Some? <==>
            exists k :: 0 <= k < |IconsByVolume| && IconsByVolume[k].iconType == Vector
                        && IconsByVolume[k].name == iconName
  {
    if VectorIconFor(iconName).Some? {
      assert IconsByVolume[0].name == iconName;
    }
  }
}
