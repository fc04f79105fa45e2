/** The persisted container preset, one row of the `container_presets` table. */
module PresetEntity {

  /** A row. `id` 0 means "not yet stored": the table assigns the id on insert. */
  datatype ContainerPresetEntity = ContainerPresetEntity(
    id: int,
    name: string,
    volume: real,
    iconType: string,   // "VECTOR" or "DRAWABLE" by convention; nothing enforces it
    iconName: string,
    isDefault: bool,
    displayOrder: int)

  /** The id that asks the table to generate one. */
  const AutoId: int := 0

  /** The data-class constructor with its defaults: an unsaved, custom preset
      at display order 0 unless told otherwise. */
  function NewPresetEntity(name: string, volume: real, iconType: string, iconName: string,
                           isDefault: bool := false, displayOrder: int := 0): (e: ContainerPresetEntity)
    ensures e.id == AutoId && e.name == name && e.volume == volume
    ensures e.iconType == iconType && e.iconName == iconName
    ensures e.isDefault == isDefault && e.displayOrder == displayOrder
  {
    ContainerPresetEntity(AutoId, name, volume, iconType, iconName, isDefault, displayOrder)
  }

  /** The documented convention for `iconType`, which the record does not enforce. */
  predicate HasKnownIconType(e: ContainerPresetEntity) {
    e.iconType == "VECTOR" || e.iconType == "DRAWABLE"
  }
}
