/**
 * The two bottom sheets of the container-preset manager: the edit sheet
 * (rename, resize or delete a preset) and the add sheet (create a custom
 * preset). Text fields are held as what the sheet reads from them: the
 * name as typed, the volume as the result of `toDoubleOrNull()` on the
 * typed text (None when the text is not a number).
 */
module PresetSheets {
  import opened Wrappers
  import opened Doubles
  import opened IconMapper
  import opened Text
  import opened PresetRepository

  /** The largest volume a preset may have, in millilitres. */
  const MaxPresetVolume: real := 5000.0

  /** The volume the add sheet previews while its volume field is empty. */
  const AddPreviewFallback: real := 250.0

  /** The outcome of pressing Save / Add: the two error flags the sheet
      shows and, when both are clear, the (trimmed name, volume) pair handed
      to the callback. */
  datatype Outcome<V> = Outcome(nameError: bool, volumeError: bool, accepted: Option<(string, V)>)

  /** The Save / Add handler as written: the volume is rejected when it is
      missing, `<= 0` or `> 5000`. Every comparison with NaN is false, so a
      NaN volume is not rejected and reaches the callback. */
  function SaveAsWritten(name: string, volume: Option<Double>): (o: Outcome<Double>)
    ensures o.nameError <==> Trim(name) == []
    ensures o.accepted.Some? <==> !o.nameError && !o.volumeError
    ensures o.accepted.Some? ==> volume.Some? && o.accepted == Some((Trim(name), volume.value))
  {
    var trimmed := Trim(name);
    var nameError := trimmed == [];
    var volumeError := volume.None? || AtMost(volume.value, 0.0) || Above(volume.value, MaxPresetVolume);
    Outcome(nameError, volumeError,
      if !nameError && !volumeError && volume.Some? then Some((trimmed, volume.value)) else None)
  }

  /** The text "NaN" parses to a Double, and the handler as written passes
      it on as the preset's volume. */
  lemma SaveAsWrittenAcceptsNaN()
    ensures SaveAsWritten("Mug", Some(NaN)).accepted == Some(("Mug", NaN))
  {
    assert Trim("Mug") == "Mug" by {
      assert !IsWhitespace('M') && !IsWhitespace('g');
    }
  }

  /** The accepted range of a preset volume: a finite number above 0 and at
      most 5000. */
  predicate ValidVolume(volume: Option<Double>) {
    volume.Some? && volume.value.Finite? && 0.0 < volume.value.value <= MaxPresetVolume
  }

  /** The Save / Add handler with the range stated positively, as the
      custom-amount dialog of the home screen states it: a volume is accepted
      only when it lies in (0, 5000]. The name error and the volume error are
      computed independently, so both can show at once. */
  function Validate(name: string, volume: Option<Double>): (o: Outcome<real>)
    ensures o.nameError <==> Trim(name) == []
    ensures o.volumeError <==> !ValidVolume(volume)
    ensures o.accepted.Some? <==> Trim(name) != [] && ValidVolume(volume)
    ensures o.accepted.Some? ==>
      o.accepted.value.0 == Trim(name) && Finite(o.accepted.value.1) == volume.value
      && 0.0 < o.accepted.value.1 <= MaxPresetVolume
  {
    var trimmed := Trim(name);
    var nameError := trimmed == [];
    var volumeError := !ValidVolume(volume);
    Outcome(nameError, volumeError,
      if !nameError && !volumeError then Some((trimmed, volume.value.value)) else None)
  }

  /** The two handlers agree on every input except a NaN volume: same error
      flags, and the same pair reaches the callback. */
  lemma AsWrittenAgreesExceptNaN(name: string, volume: Option<Double>)
    requires volume != Some(NaN)
    ensures SaveAsWritten(name, volume).nameError == Validate(name, volume).nameError
    ensures SaveAsWritten(name, volume).volumeError == Validate(name, volume).volumeError
    ensures Validate(name, volume).accepted.Some? ==>
      SaveAsWritten(name, volume).accepted
        == Some((Validate(name, volume).accepted.value.0, Finite(Validate(name, volume).accepted.value.1)))
    ensures Validate(name, volume).accepted.None? ==> SaveAsWritten(name, volume).accepted.None?
  {
  }

  /** The name is trimmed before it is handed on, so surrounding spaces never
      reach storage, and a name of spaces alone is refused. */
  lemma AcceptedNameIsTrimmed(name: string, volume: Option<Double>)
    ensures Validate(name, volume).accepted.Some? ==>
      var n := Validate(name, volume).accepted.value.0;
      n != [] && !IsWhitespace(n[0]) && !IsWhitespace(n[|n| - 1])
    ensures IsBlank(name) ==> Validate(name, volume).accepted.None?
  {
    TrimIsInnerSlice(name);
  }

  /** The volume the preview icon is chosen for: the typed number, or the
      fallback while the text does not parse. */
  function PreviewVolume(volumeText: Option<Double>, fallback: real): (d: Double)
    ensures volumeText.Some? ==> d == volumeText.value
    ensures volumeText.None? ==> d == Finite(fallback)
  {
    match volumeText
    case Some(v) => v
    case None => Finite(fallback)
  }

  /** The volume shown in the edit sheet's field when it opens: the preset's
      volume converted with `toInt()` and printed, read back as a number. */
  function InitialVolumeText(volume: real): (d: Option<Double>)
    ensures d.Some? && d.value.Finite?
    ensures 0.0 <= volume <= IntMax as real ==>
      d.value.value <= volume < d.value.value + 1.0 && d.value.value == volume.Floor as real
  {
    Some(Finite(ToInt(Finite(volume)) as real))
  }

  /** The edit sheet opened on `preset`. */
  class EditPresetSheet {
    const preset: ContainerPreset
    var name: string
    var volumeText: Option<Double>
    var nameError: bool
    var volumeError: bool
    var showDeleteConfirmation: bool

    constructor(preset: ContainerPreset)
      ensures this.preset == preset
      ensures name == preset.name && volumeText == InitialVolumeText(preset.volume)
      ensures !nameError && !volumeError && !showDeleteConfirmation
    {
      this.preset := preset;
      name := preset.name;
      volumeText := InitialVolumeText(preset.volume);
      nameError := false;
      volumeError := false;
      showDeleteConfirmation := false;
    }

    /** The icon drawn at the top of the sheet: the mapper's icon for the
        typed volume, or for the preset's own volume while the text does not
        parse. */
    function PreviewIcon(): (icon: ContainerIcon)
      reads this
      ensures icon == IconForVolume(PreviewVolume(volumeText, preset.volume))
      ensures icon in IconsByVolume
    {
      IconForVolume(PreviewVolume(volumeText, preset.volume))
    }

    /** Typing in the name field clears the name error and nothing else. */
    method EditName(text: string)
      modifies this
      ensures name == text && !nameError
      ensures volumeText == old(volumeText) && volumeError == old(volumeError)
      ensures showDeleteConfirmation == old(showDeleteConfirmation)
    {
      name := text;
      nameError := false;
    }

    /** Typing in the volume field clears the volume error and nothing else. */
    method EditVolume(parsed: Option<Double>)
      modifies this
      ensures volumeText == parsed && !volumeError
      ensures name == old(name) && nameError == old(nameError)
      ensures showDeleteConfirmation == old(showDeleteConfirmation)
    {
      volumeText := parsed;
      volumeError := false;
    }

    /** Save: sets both error flags and returns the pair passed to `onSave`,
        if any. The fields themselves are left as typed. */
    method PressSave() returns (saved: Option<(string, real)>)
      modifies this
      ensures Outcome(nameError, volumeError, saved) == Validate(name, volumeText)
      ensures name == old(name) && volumeText == old(volumeText)
      ensures showDeleteConfirmation == old(showDeleteConfirmation)
    {
      var o := Validate(name, volumeText);
      nameError := o.nameError;
      volumeError := o.volumeError;
      saved := o.accepted;
    }

    /** Delete only opens the confirmation dialog. */
    method PressDelete()
      modifies this
      ensures showDeleteConfirmation
      ensures name == old(name) && volumeText == old(volumeText)
      ensures nameError == old(nameError) && volumeError == old(volumeError)
    {
      showDeleteConfirmation := true;
    }

    /** Cancel, or dismissing the dialog, closes it without deleting. */
    method CancelDelete()
      modifies this
      ensures !showDeleteConfirmation
      ensures name == old(name) && volumeText == old(volumeText)
      ensures nameError == old(nameError) && volumeError == old(volumeError)
    {
      showDeleteConfirmation := false;
    }

    /** The dialog's Delete button: closes the dialog and reports whether
        `onDelete` is called, which happens only while the dialog is open. */
    method ConfirmDelete() returns (deleted: bool)
      modifies this
      ensures deleted == old(showDeleteConfirmation)
      ensures !showDeleteConfirmation
      ensures name == old(name) && volumeText == old(volumeText)
      ensures nameError == old(nameError) && volumeError == old(volumeError)
    {
      deleted := showDeleteConfirmation;
      showDeleteConfirmation := false;
    }
  }

  /** Saving an untouched edit sheet stores the preset's volume truncated to
      a whole number: a 250.7 ml preset comes back as 250 ml. */
  lemma UntouchedSaveTruncates()
    ensures Validate("Mug", InitialVolumeText(250.7)).accepted == Some(("Mug", 250.0))
  {
    assert Trim("Mug") == "Mug" by {
      assert !IsWhitespace('M') && !IsWhitespace('g');
    }
  }

  /** An untouched edit sheet of a stored preset (a name that is not blank, a
      volume in range of at least 1 ml) saves without error. */
  lemma UntouchedSaveAccepted(preset: ContainerPreset)
    requires !IsBlank(preset.name) && 1.0 <= preset.volume <= MaxPresetVolume
    ensures Validate(preset.name, InitialVolumeText(preset.volume)).accepted.Some?
  {
    TrimIsInnerSlice(preset.name);
  }

  /** The add sheet: both fields start empty. */
  class AddPresetSheet {
    var name: string
    var volumeText: Option<Double>
    var nameError: bool
    var volumeError: bool

    constructor()
      ensures name == [] && volumeText == None && !nameError && !volumeError
    {
      name := [];
      volumeText := None;
      nameError := false;
      volumeError := false;
    }

    /** The preview icon: the typed volume's icon, or the 250 ml icon while
        the field does not hold a number. */
    function PreviewIcon(): (icon: ContainerIcon)
      reads this
      ensures icon == IconForVolume(PreviewVolume(volumeText, AddPreviewFallback))
      ensures icon in IconsByVolume
    {
      IconForVolume(PreviewVolume(volumeText, AddPreviewFallback))
    }

    method EditName(text: string)
      modifies this
      ensures name == text && !nameError
      ensures volumeText == old(volumeText) && volumeError == old(volumeError)
    {
      name := text;
      nameError := false;
    }

    method EditVolume(parsed: Option<Double>)
      modifies this
      ensures volumeText == parsed && !volumeError
      ensures name == old(name) && nameError == old(nameError)
    {
      volumeText := parsed;
      volumeError := false;
    }

    /** Add: sets both error flags and returns the pair passed to `onAdd`,
        if any. */
    method PressAdd() returns (added: Option<(string, real)>)
      modifies this
      ensures Outcome(nameError, volumeError, added) == Validate(name, volumeText)
      ensures name == old(name) && volumeText == old(volumeText)
    {
      var o := Validate(name, volumeText);
      nameError := o.nameError;
      volumeError := o.volumeError;
      added := o.accepted;
    }
  }

  /** Pressing Add on a fresh sheet shows both errors and adds nothing; its
      preview is the medium glass drawn for 250 ml. */
  lemma FreshAddSheet()
    ensures Validate([], None) == Outcome(true, true, None)
    ensures IconForVolume(PreviewVolume(None, AddPreviewFallback)) == IconsByVolume[3]
  {
    IconIndexMatchesBands(AddPreviewFallback);
  }
}
