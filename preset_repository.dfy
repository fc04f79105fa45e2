/**
 * The container-preset repository: the seven default presets, the mapping
 * from a stored row to the preset the screens show, and the operations that
 * add, edit, delete, reset and seed presets through the data-access object.
 */
module PresetRepository {
  import opened Wrappers
  import opened Doubles
  import opened IconMapper
  import opened PresetEntity
  import opened PresetDao

  /** The preset the screens show: at most one of `icon` (a vector icon) and
      `iconRes` (a drawable) is set. */
  datatype ContainerPreset = ContainerPreset(
    id: int,
    name: string,
    volume: real,
    isDefault: bool,
    icon: Option<VectorIcon>,
    iconRes: Option<DrawableRes>,
    isCustom: bool)

  /** `toContainerPreset`: the icon is resolved only for the type the row names. */
  function ToContainerPreset(e: ContainerPresetEntity): (p: ContainerPreset)
    ensures p.id == e.id && p.name == e.name && p.volume == e.volume
    ensures p.isDefault == e.isDefault && p.isCustom == !e.isDefault
    ensures !(p.icon.Some? && p.iconRes.Some?)
    ensures e.iconType != "VECTOR" ==> p.icon == None
    ensures e.iconType != "DRAWABLE" ==> p.iconRes == None
    ensures e.iconType == "VECTOR" ==> p.icon == VectorIconFor(e.iconName)
    ensures e.iconType == "DRAWABLE" ==> p.iconRes == DrawableResId(e.iconName)
  {
    var vectorIcon := if e.iconType == TypeName(Vector) then VectorIconFor(e.iconName) else None;
    var drawableRes := if e.iconType == TypeName(Drawable) then DrawableResId(e.iconName) else None;
    ContainerPreset(e.id, e.name, e.volume, e.isDefault, vectorIcon, drawableRes, !e.isDefault)
  }

  /** A row that stores a listed icon's type and name shows exactly that icon's resource. */
  lemma StoredIconResolves(e: ContainerPresetEntity, k: nat)
    requires k < |IconsByVolume|
    requires e.iconType == TypeName(IconsByVolume[k].iconType) && e.iconName == IconsByVolume[k].name
    ensures ToContainerPreset(e).icon == IconsByVolume[k].vectorIcon
    ensures ToContainerPreset(e).iconRes == IconsByVolume[k].drawableRes
  {
    IconTypesByPosition();
  }

  /** `getDefaultPresetEntities`: seven unsaved default presets, smallest first. */
  function DefaultPresetEntities(): (d: seq<ContainerPresetEntity>)
    ensures |d| == 7
    ensures forall j :: 0 <= j < |d| ==> d[j].id == AutoId && d[j].isDefault && d[j].displayOrder == j
    ensures forall j :: 0 <= j < |d| ==> HasKnownIconType(d[j])
    ensures forall i, j :: 0 <= i < j < |d| ==> d[i].volume < d[j].volume
  {
    [ NewPresetEntity("Coffee Cup", 100.0, TypeName(Vector), "LocalCafe", true, 0),
      NewPresetEntity("Tea Cup", 150.0, TypeName(Drawable), "glass_cup", true, 1),
      NewPresetEntity("Small Cup", 175.0, TypeName(Drawable), "water_loss", true, 2),
      NewPresetEntity("Medium Glass", 200.0, TypeName(Drawable), "water_medium", true, 3),
      NewPresetEntity("Large Glass", 300.0, TypeName(Drawable), "water_full", true, 4),
      NewPresetEntity("Water Bottle", 500.0, TypeName(Drawable), "water_bottle", true, 5),
      NewPresetEntity("Large Bottle", 1000.0, TypeName(Drawable), "water_bottle_large", true, 6) ]
  }

  /** Each default preset carries the icon the volume mapper gives its volume,
      so a seeded preset and one added with the same volume look alike. */
  lemma DefaultsMatchMapper()
    ensures forall j :: 0 <= j < |DefaultPresetEntities()| ==>
              var icon := IconForVolume(Finite(DefaultPresetEntities()[j].volume));
              TypeName(icon.iconType) == DefaultPresetEntities()[j].iconType
              && icon.name == DefaultPresetEntities()[j].iconName
  {
    var d := DefaultPresetEntities();
    forall j | 0 <= j < |d|
      ensures TypeName(IconForVolume(Finite(d[j].volume)).iconType) == d[j].iconType
              && IconForVolume(Finite(d[j].volume)).name == d[j].iconName
    {
      IconIndexMatchesBands(d[j].volume);
    }
  }

  /** The row `addPreset` stores: a custom preset after every existing one in
      display order, with the icon the volume mapper picks. */
  ghost function NewCustomEntity(t: TableState, name: string, volume: real): ContainerPresetEntity {
    var icon := IconForVolume(Finite(volume));
    NewPresetEntity(name, volume, TypeName(icon.iconType), icon.name, false, MaxDisplayOrder(t.rows) + 1)
  }

  /** `addPreset`: the new table and the id it returns. */
  ghost function Added(t: TableState, name: string, volume: real): (TableState, int) {
    Insert(t, NewCustomEntity(t, name, volume))
  }

  /** `updatePreset`: a stored preset gets the new name, volume and the
      mapper's icon for that volume; an unknown id changes nothing. */
  function Updated(t: TableState, id: int, name: string, volume: real): TableState {
    match Lookup(t, id)
    case None => t
    case Some(existing) =>
      var icon := IconForVolume(Finite(volume));
      Update(t, existing.(name := name, volume := volume, iconType := TypeName(icon.iconType), iconName := icon.name))
  }

  /** `seedDefaults`. */
  function Seeded(t: TableState): TableState {
    InsertAll(t, DefaultPresetEntities())
  }

  /** `seedDefaultsIfNeeded`: seeds only an empty table. */
  function SeededIfNeeded(t: TableState): TableState {
    if |t.rows| == 0 then Seeded(t) else t
  }

  /** `resetToDefaults`: every row deleted, then the defaults seeded. */
  function Reset(t: TableState): TableState {
    Seeded(DeleteAll(t))
  }

  /** Adding stores one new custom preset under a fresh id, with display
      order one more than the largest stored (1 on an empty table), so after
      every existing preset, with the icon the mapper picks for its
      volume; every stored preset stays as it was. */
  lemma AddAppendsCustomPreset(t: TableState, name: string, volume: real)
    requires WellFormed(t)
    ensures var (t', id) := Added(t, name, volume);
            && WellFormed(t')
            && id == t.nextId && id !in t.rows
            && t'.rows.Keys == t.rows.Keys + {id}
            && (forall k :: k in t.rows ==> t'.rows[k] == t.rows[k])
            && t'.rows[id].name == name && t'.rows[id].volume == volume
            && !t'.rows[id].isDefault
            && t'.rows[id].displayOrder == MaxDisplayOrder(t.rows) + 1
            && (forall k :: k in t.rows ==> t.rows[k].displayOrder < t'.rows[id].displayOrder)
            && (t.rows == map[] ==> t'.rows[id].displayOrder == 1)
            && t'.rows[id].iconType == TypeName(IconForVolume(Finite(volume)).iconType)
            && t'.rows[id].iconName == IconForVolume(Finite(volume)).name
  {
    InsertNewAddsOneRow(t, NewCustomEntity(t, name, volume));
  }

  /** An added preset shows the icon resource the mapper picked for its volume. */
  lemma AddedPresetShowsMapperIcon(t: TableState, name: string, volume: real)
    requires WellFormed(t)
    ensures var (t', id) := Added(t, name, volume);
            id in t'.rows
            && ToContainerPreset(t'.rows[id]).icon == IconForVolume(Finite(volume)).vectorIcon
            && ToContainerPreset(t'.rows[id]).iconRes == IconForVolume(Finite(volume)).drawableRes
            && ToContainerPreset(t'.rows[id]).isCustom
  {
    InsertNewAddsOneRow(t, NewCustomEntity(t, name, volume));
    StoredIconResolves(Added(t, name, volume).0.rows[t.nextId], IconIndexForVolume(Finite(volume)));
  }

  /** Editing keeps a preset's id, default flag and display order, sets the
      new name, volume and icon, and touches no other row; editing an
      unknown id changes nothing. */
  lemma UpdateKeepsIdentity(t: TableState, id: int, name: string, volume: real)
    requires WellFormed(t)
    ensures var t' := Updated(t, id, name, volume);
            && WellFormed(t')
            && t'.rows.Keys == t.rows.Keys && t'.nextId == t.nextId
            && (id !in t.rows ==> t' == t)
            && (id in t.rows ==>
                  && t'.rows[id].id == id
                  && t'.rows[id].isDefault == t.rows[id].isDefault
                  && t'.rows[id].displayOrder == t.rows[id].displayOrder
                  && t'.rows[id].name == name && t'.rows[id].volume == volume
                  && t'.rows[id].iconType == TypeName(IconForVolume(Finite(volume)).iconType)
                  && t'.rows[id].iconName == IconForVolume(Finite(volume)).name)
            && (forall k :: k in t.rows && k != id ==> t'.rows[k] == t.rows[k])
  {
    if id in t.rows {
      var icon := IconForVolume(Finite(volume));
      UpdateTouchesOnlyItsRow(t, t.rows[id].(name := name, volume := volume, iconType := TypeName(icon.iconType), iconName := icon.name));
    }
  }

  /** Seeding inserts the seven defaults under consecutive fresh ids. */
  lemma SeedAddsDefaults(t: TableState)
    requires WellFormed(t)
    ensures var t' := Seeded(t);
            && WellFormed(t')
            && |t'.rows| == |t.rows| + 7
            && t'.nextId == t.nextId + 7
            && (forall k :: k in t'.rows <==> k in t.rows || t.nextId <= k < t.nextId + 7)
            && (forall k :: k in t.rows ==> t'.rows[k] == t.rows[k])
            && (forall j :: 0 <= j < 7 ==> t'.rows[t.nextId + j] == DefaultPresetEntities()[j].(id := t.nextId + j))
  {
    var d := DefaultPresetEntities();
    InsertAllNewKeys(t, d);
    forall k | k in t.rows ensures k in Seeded(t).rows && Seeded(t).rows[k] == t.rows[k] {
      InsertAllKeepsRows(t, d, k);
    }
    forall j | 0 <= j < 7 ensures Seeded(t).rows[t.nextId + j] == d[j].(id := t.nextId + j) {
      InsertAllNew(t, d, j);
    }
  }

  /** Resetting leaves exactly seven presets, under ids never used before;
      no preset stored before survives. */
  lemma ResetLeavesSevenFreshRows(t: TableState)
    requires WellFormed(t)
    ensures WellFormed(Reset(t))
    ensures |Reset(t).rows| == 7
    ensures forall k :: k in Reset(t).rows <==> t.nextId <= k < t.nextId + 7
    ensures forall k :: k in Reset(t).rows ==> k !in t.rows
  {
    DeleteAllEmptiesTable(t);
    InsertAllNewKeys(DeleteAll(t), DefaultPresetEntities());
  }

  /** ... and those seven are the defaults in order, each flagged default. */
  lemma ResetLeavesOnlyDefaults(t: TableState, j: int)
    requires WellFormed(t) && 0 <= j < 7
    ensures t.nextId + j in Reset(t).rows
    ensures Reset(t).rows[t.nextId + j] == DefaultPresetEntities()[j].(id := t.nextId + j)
    ensures Reset(t).rows[t.nextId + j].isDefault
  {
    DeleteAllEmptiesTable(t);
    InsertAllNew(DeleteAll(t), DefaultPresetEntities(), j);
  }

  /** Seeding happens only on an empty table, and then fills it with the
      seven defaults; a table with any preset is left alone. */
  lemma SeedOnlyWhenEmpty(t: TableState)
    requires WellFormed(t)
    ensures |t.rows| > 0 ==> SeededIfNeeded(t) == t
    ensures |t.rows| == 0 ==> |SeededIfNeeded(t).rows| == 7 && SeededIfNeeded(t) == Reset(t)
  {
    if |t.rows| == 0 {
      SeedAddsDefaults(t);
      assert DeleteAll(t) == t;
    }
  }

  /** Seeding at every start-up is harmless: a second seed changes nothing. */
  lemma SeedIdempotent(t: TableState)
    requires WellFormed(t)
    ensures SeededIfNeeded(SeededIfNeeded(t)) == SeededIfNeeded(t)
  {
    SeedOnlyWhenEmpty(t);
    if |t.rows| == 0 {
      SeedAddsDefaults(t);
    }
  }

  /** A row whose type is neither spelling shows no icon at all. */
  lemma UnknownIconTypeShowsNoIcon(e: ContainerPresetEntity)
    requires !HasKnownIconType(e)
    ensures ToContainerPreset(e).icon == None && ToContainerPreset(e).iconRes == None
  {
  }

  /** The repository, working on the table through its data-access object. */
  class ContainerPresetRepository {
    const dao: PresetTable

    constructor (dao: PresetTable)
      ensures this.dao == dao
    {
      this.dao := dao;
    }

    /** `getAllPresetsSync`: every stored preset, as the screens show it, by ascending volume. */
    method GetAllPresetsSync() returns (r: seq<ContainerPreset>)
      requires dao.Valid()
      ensures |r| == |dao.rows|
      ensures forall i :: 0 <= i < |r| ==> r[i].id in dao.rows && r[i] == ToContainerPreset(dao.rows[r[i].id])
      ensures forall i, j :: 0 <= i < j < |r| ==> r[i].volume <= r[j].volume && r[i].id != r[j].id
    {
      var es := dao.GetAllPresetsSync();
      r := seq(|es|, i requires 0 <= i < |es| => ToContainerPreset(es[i]));
      forall i | 0 <= i < |r| ensures r[i].id in dao.rows && r[i] == ToContainerPreset(dao.rows[r[i].id]) {
        ListedRowsAreStored(dao.State(), es);
      }
    }

    /** `addPreset`: returns the new preset's id. */
    method AddPreset(name: string, volume: real) returns (id: int)
      requires dao.Valid()
      modifies dao
      ensures dao.Valid()
      ensures (dao.State(), id) == Added(old(dao.State()), name, volume)
    {
      var icon := IconForVolume(Finite(volume));
      var maxOrder := dao.GetMaxDisplayOrder();
      var entity := NewPresetEntity(name, volume, TypeName(icon.iconType), icon.name, false, maxOrder + 1);
      id := dao.InsertPreset(entity);
    }

    /** `updatePreset`. */
    method UpdatePreset(id: int, name: string, volume: real)
      requires dao.Valid()
      modifies dao
      ensures dao.Valid()
      ensures dao.State() == Updated(old(dao.State()), id, name, volume)
    {
      var existing := dao.GetPresetById(id);
      if existing.None? {
        return;
      }
      var icon := IconForVolume(Finite(volume));
      var updated := existing.value.(name := name, volume := volume, iconType := TypeName(icon.iconType), iconName := icon.name);
      dao.UpdatePreset(updated);
    }

    /** `deletePreset`. */
    method DeletePreset(id: int)
      requires dao.Valid()
      modifies dao
      ensures dao.Valid()
      ensures dao.State() == DeleteById(old(dao.State()), id)
    {
      dao.DeletePresetById(id);
    }

    /** `resetToDefaults`. */
    method ResetToDefaults()
      requires dao.Valid()
      modifies dao
      ensures dao.Valid()
      ensures dao.State() == Reset(old(dao.State()))
    {
      dao.DeleteAllPresets();
      SeedDefaults();
    }

    /** `seedDefaultsIfNeeded`. */
    method SeedDefaultsIfNeeded()
      requires dao.Valid()
      modifies dao
      ensures dao.Valid()
      ensures dao.State() == SeededIfNeeded(old(dao.State()))
    {
      var count := dao.GetPresetCount();
      if count == 0 {
        SeedDefaults();
      }
    }

    /** `seedDefaults`. */
    method SeedDefaults()
      requires dao.Valid()
      modifies dao
      ensures dao.Valid()
      ensures dao.State() == Seeded(old(dao.State()))
    {
      dao.InsertPresets(DefaultPresetEntities());
    }

    /** `getPresetCount`. */
    method GetPresetCount() returns (n: int)
      ensures n == |dao.rows|
    {
      n := dao.GetPresetCount();
    }
  }
}
