/**
 * The rules of the home screen: which container a quick add records, the
 * range a custom amount must lie in, the edit-entry dialog, the preset
 * carousel, the motivational message under the progress ring and the
 * floating action button that collapses while the list scrolls down.
 */
module HomeScreen {
  import opened Wrappers
  import opened Doubles
  import opened PresetRepository
  import opened PresetSheets

  // ---------------------------------------------------------------------
  // Quick add
  // ---------------------------------------------------------------------

  /** The container a new intake entry is recorded with: the first default
      preset whose name matches, or a preset named "Custom" whose volume is
      the amount itself (its other fields take their declared defaults). */
  datatype QuickAddContainer = DefaultContainer(preset: ContainerPreset) | CustomContainer(volume: real)

  /** Kotlin's `find { it.name == name }` from position `k` on: the index of
      the first preset with that name. */
  function FindByNameFrom(presets: seq<ContainerPreset>, name: string, k: nat): (r: Option<nat>)
    requires k <= |presets|
    ensures r.Some? ==> k <= r.value < |presets| && presets[r.value].name == name
    ensures r.Some? ==> forall j :: k <= j < r.value ==> presets[j].name != name
    ensures r.None? <==> forall j :: k <= j < |presets| ==> presets[j].name != name
    decreases |presets| - k
  {
    if k == |presets| then None
    else if presets[k].name == name then Some(k)
    else FindByNameFrom(presets, name, k + 1)
  }

  /** `addWaterIntake(amount, containerName)`: the container it records.
      `defaults` is `ContainerPreset.getDefaultPresets()`, whose contents are
      not part of this model. */
  function QuickAddPreset(defaults: seq<ContainerPreset>, amount: real, containerName: string): (c: QuickAddContainer)
    ensures c.DefaultContainer? <==> exists j :: 0 <= j < |defaults| && defaults[j].name == containerName
    ensures c.DefaultContainer? ==>
      exists j :: 0 <= j < |defaults| && c.preset == defaults[j] && c.preset.name == containerName
        && forall i :: 0 <= i < j ==> defaults[i].name != containerName
    ensures c.CustomContainer? ==> c.volume == amount
  {
    match FindByNameFrom(defaults, containerName, 0)
    case Some(j) => DefaultContainer(defaults[j])
    case None => CustomContainer(amount)
  }

  // ---------------------------------------------------------------------
  // Amount range shared by the custom-amount and edit-entry dialogs
  // ---------------------------------------------------------------------

  /** `amount != null && amount > 0 && amount <= 5000`. */
  predicate AmountAccepted(amount: Option<Double>) {
    amount.Some? && Above(amount.value, 0.0) && AtMost(amount.value, 5000.0)
  }

  /** The dialogs' range check accepts exactly the finite amounts in
      (0, 5000]: NaN fails both comparisons and the infinities fail one. It
      is the same rule the corrected preset sheets apply. */
  lemma AmountAcceptedIsFiniteRange(amount: Option<Double>)
    ensures AmountAccepted(amount) <==>
      amount.Some? && amount.value.Finite? && 0.0 < amount.value.value <= 5000.0
    ensures AmountAccepted(amount) <==> ValidVolume(amount)
    ensures !AmountAccepted(Some(NaN)) && !AmountAccepted(Some(PosInf)) && !AmountAccepted(Some(NegInf))
  {
  }

  /** The custom-amount dialog: an empty amount field and no error. */
  class CustomWaterDialog {
    var amountText: Option<Double>
    var isError: bool

    constructor()
      ensures amountText == None && !isError
    {
      amountText := None;
      isError := false;
    }

    /** Typing clears the error. */
    method EditAmount(parsed: Option<Double>)
      modifies this
      ensures amountText == parsed && !isError
    {
      amountText := parsed;
      isError := false;
    }

    /** Add: hands the amount to `onConfirm` when it is in range; otherwise
        only raises the error flag. */
    method PressAdd() returns (confirmed: Option<real>)
      modifies this
      ensures amountText == old(amountText)
      ensures confirmed.Some? <==> AmountAccepted(amountText)
      ensures confirmed.Some? ==> amountText == Some(Finite(confirmed.value)) && 0.0 < confirmed.value <= 5000.0
      ensures isError == if confirmed.Some? then old(isError) else true
    {
      if AmountAccepted(amountText) {
        confirmed := Some(amountText.value.value);
      } else {
        isError := true;
        confirmed := None;
      }
    }
  }

  /** A confirmed custom amount is recorded as `addWaterIntake(amount, "Custom")`. */
  function RecordCustomAmount(defaults: seq<ContainerPreset>, amount: real): (c: QuickAddContainer)
    ensures (forall j :: 0 <= j < |defaults| ==> defaults[j].name != "Custom") ==> c == CustomContainer(amount)
  {
    QuickAddPreset(defaults, amount, "Custom")
  }

  // ---------------------------------------------------------------------
  // Edit-entry dialog
  // ---------------------------------------------------------------------

  /** A logged intake. */
  datatype WaterIntakeEntry = WaterIntakeEntry(
    id: int,
    amount: real,
    timestamp: int,
    date: string,
    containerType: string,
    containerVolume: real,
    note: Option<string>,
    healthConnectRecordId: Option<string>,
    isHidden: bool,
    beverageType: string)

  /** `entry.copy(amount, containerType, beverageType, timestamp)`. */
  function EditedEntry(entry: WaterIntakeEntry, amount: real, containerType: string, beverageType: string, timestamp: int)
    : (e: WaterIntakeEntry)
    ensures e.amount == amount && e.containerType == containerType
    ensures e.beverageType == beverageType && e.timestamp == timestamp
    ensures e.id == entry.id && e.date == entry.date && e.containerVolume == entry.containerVolume
    ensures e.note == entry.note && e.healthConnectRecordId == entry.healthConnectRecordId
    ensures e.isHidden == entry.isHidden
  {
    entry.(amount := amount, containerType := containerType, beverageType := beverageType, timestamp := timestamp)
  }

  /** The dialog opened on `entry`. `isExternal` is `entry.isExternalEntry()`
      and `beverage` is the name of `entry.getBeverageType()`; neither is part
      of this model. */
  class EditWaterDialog {
    const entry: WaterIntakeEntry
    const isExternal: bool
    var amountText: Option<Double>
    var containerType: string
    var selectedBeverage: string
    var isError: bool

    constructor(entry: WaterIntakeEntry, isExternal: bool, beverage: string)
      ensures this.entry == entry && this.isExternal == isExternal
      ensures amountText == Some(Finite(entry.amount)) && containerType == entry.containerType
      ensures selectedBeverage == beverage && !isError
    {
      this.entry := entry;
      this.isExternal := isExternal;
      amountText := Some(Finite(entry.amount));
      containerType := entry.containerType;
      selectedBeverage := beverage;
      isError := false;
    }

    /** Picking a preset from the container menu sets both the container name
        and the amount to that preset's. The menu does not exist for an
        external entry. */
    method PickPreset(preset: ContainerPreset)
      modifies this
      ensures isExternal ==> amountText == old(amountText) && containerType == old(containerType)
      ensures !isExternal ==> amountText == Some(Finite(preset.volume)) && containerType == preset.name
      ensures selectedBeverage == old(selectedBeverage) && isError == old(isError)
    {
      if !isExternal {
        containerType := preset.name;
        amountText := Some(Finite(preset.volume));
      }
    }

    /** Picking "Custom" changes the container name only. */
    method PickCustom()
      modifies this
      ensures containerType == if isExternal then old(containerType) else "Custom"
      ensures amountText == old(amountText)
      ensures selectedBeverage == old(selectedBeverage) && isError == old(isError)
    {
      if !isExternal {
        containerType := "Custom";
      }
    }

    /** Picking a beverage; no menu for an external entry. */
    method PickBeverage(beverage: string)
      modifies this
      ensures selectedBeverage == if isExternal then old(selectedBeverage) else beverage
      ensures amountText == old(amountText) && containerType == old(containerType) && isError == old(isError)
    {
      if !isExternal {
        selectedBeverage := beverage;
      }
    }

    /** Typing an amount; ignored for an external entry. */
    method EditAmount(parsed: Option<Double>)
      modifies this
      ensures isExternal ==> amountText == old(amountText) && isError == old(isError)
      ensures !isExternal ==> amountText == parsed && !isError
      ensures containerType == old(containerType) && selectedBeverage == old(selectedBeverage)
    {
      if !isExternal {
        amountText := parsed;
        isError := false;
      }
    }

    /** Update, at `timestamp` (the entry's day at the picked hour and
        minute): the edited copy handed to `onConfirm`, if any. An external
        entry has no Update button, so nothing is ever handed on for it. */
    method PressUpdate(timestamp: int) returns (updated: Option<WaterIntakeEntry>)
      modifies this
      ensures amountText == old(amountText) && containerType == old(containerType)
      ensures selectedBeverage == old(selectedBeverage)
      ensures updated.Some? <==> !isExternal && AmountAccepted(amountText)
      ensures updated.Some? ==>
        updated.value == EditedEntry(entry, amountText.value.value, containerType, selectedBeverage, timestamp)
      ensures isError == if !isExternal && updated.None? then true else old(isError)
    {
      updated := None;
      if !isExternal {
        if AmountAccepted(amountText) {
          updated := Some(EditedEntry(entry, amountText.value.value, containerType, selectedBeverage, timestamp));
        } else {
          isError := true;
        }
      }
    }
  }

  /** Whatever the user does in the dialog, an accepted edit keeps the
      entry's identity, date, volume, note, sync id and hidden flag, and its
      amount is in range. */
  lemma EditKeepsIdentity(entry: WaterIntakeEntry, amount: Option<Double>, containerType: string, beverage: string, timestamp: int)
    requires AmountAccepted(amount)
    ensures var e := EditedEntry(entry, amount.value.value, containerType, beverage, timestamp);
      e.(amount := entry.amount, containerType := entry.containerType,
         beverageType := entry.beverageType, timestamp := entry.timestamp) == entry
      && 0.0 < e.amount <= 5000.0
  {
  }

  // ---------------------------------------------------------------------
  // Preset carousel
  // ---------------------------------------------------------------------

  /** One carousel slot: a preset card or the trailing Add card. */
  datatype CarouselItem = PresetCard(preset: ContainerPreset) | AddCard

  /** `presets.size + 1` slots: one per preset and the Add card. */
  function CarouselItemCount(presets: seq<ContainerPreset>): nat {
    |presets| + 1
  }

  /** The slot shown at `index`. */
  function CarouselItemAt(presets: seq<ContainerPreset>, index: nat): (item: CarouselItem)
    requires index < CarouselItemCount(presets)
    ensures item.AddCard? <==> index == |presets|
    ensures item.PresetCard? ==> item.preset == presets[index]
  {
    if index < |presets| then PresetCard(presets[index]) else AddCard
  }

  /** The carousel lists every preset exactly once, in order, followed by
      exactly one Add card. */
  lemma CarouselLayout(presets: seq<ContainerPreset>)
    ensures CarouselItemCount(presets) == |presets| + 1
    ensures forall i :: 0 <= i < |presets| ==> CarouselItemAt(presets, i) == PresetCard(presets[i])
    ensures forall i :: 0 <= i < CarouselItemCount(presets) && CarouselItemAt(presets, i) == AddCard ==> i == |presets|
    ensures CarouselItemAt(presets, |presets|) == AddCard
  {
  }

  /** Tapping a preset card records `addWaterIntake(preset.volume, preset.name)`. */
  function TapPresetCard(defaults: seq<ContainerPreset>, presets: seq<ContainerPreset>, index: nat): QuickAddContainer
    requires index < |presets|
  {
    QuickAddPreset(defaults, presets[index].volume, presets[index].name)
  }

  /** A card whose name no default preset has (a custom preset) is recorded
      as a "Custom" container of the card's volume; a card whose name a
      default has is recorded as the first such default. */
  lemma TapPresetCardRecords(defaults: seq<ContainerPreset>, presets: seq<ContainerPreset>, index: nat)
    requires index < |presets|
    ensures (forall j :: 0 <= j < |defaults| ==> defaults[j].name != presets[index].name) ==>
      TapPresetCard(defaults, presets, index) == CustomContainer(presets[index].volume)
    ensures presets[index] in defaults ==>
      TapPresetCard(defaults, presets, index).DefaultContainer?
      && TapPresetCard(defaults, presets, index).preset.name == presets[index].name
  {
    if presets[index] in defaults {
      var j :| 0 <= j < |defaults| && defaults[j] == presets[index];
      assert defaults[j].name == presets[index].name;
    }
  }

  // ---------------------------------------------------------------------
  // Motivational message
  // ---------------------------------------------------------------------

  /** The message under the progress ring. `ActivityTip` is the hydration
      tip of the user's activity level, which is not part of this model. */
  datatype Motivation = GoalReached | AlmostThere | Halfway | GoodStart | ActivityTip

  /** The fixed text of each message. */
  function MotivationText(m: Motivation): Option<string> {
    match m
    case GoalReached => Some(" Amazing! You've reached your daily goal!")
    case AlmostThere => Some(" You're doing great! Almost there!")
    case Halfway => Some(" Halfway there! Keep up the good work!")
    case GoodStart => Some(" Good start! Stay consistent!")
    case ActivityTip => None
  }

  /** `getMotivationalMessage(progress, isGoalAchieved)`: first match. */
  function MotivationalMessage(progress: Double, isGoalAchieved: bool): (m: Motivation)
    ensures isGoalAchieved ==> m == GoalReached
    ensures !isGoalAchieved ==> m != GoalReached
  {
    if isGoalAchieved then GoalReached
    else if AtLeast(progress, 0.75) then AlmostThere
    else if AtLeast(progress, 0.5) then Halfway
    else if AtLeast(progress, 0.25) then GoodStart
    else ActivityTip
  }

  /** How encouraging a message is, tip lowest. */
  function Rank(m: Motivation): nat {
    match m
    case ActivityTip => 0
    case GoodStart => 1
    case Halfway => 2
    case AlmostThere => 3
    case GoalReached => 4
  }

  /** The bands: each message covers exactly its quarter of progress. */
  lemma MotivationBands(p: real)
    ensures MotivationalMessage(Finite(p), false) == AlmostThere <==> 0.75 <= p
    ensures MotivationalMessage(Finite(p), false) == Halfway <==> 0.5 <= p < 0.75
    ensures MotivationalMessage(Finite(p), false) == GoodStart <==> 0.25 <= p < 0.5
    ensures MotivationalMessage(Finite(p), false) == ActivityTip <==> p < 0.25
  {
  }

  /** More progress never yields a less encouraging message, and reaching
      the goal beats every other message. */
  lemma MotivationMonotone(p: real, q: real, achievedP: bool, achievedQ: bool)
    requires p <= q && (achievedP ==> achievedQ)
    ensures Rank(MotivationalMessage(Finite(p), achievedP)) <= Rank(MotivationalMessage(Finite(q), achievedQ))
  {
  }

  /** A progress value that is not a number shows the tip. */
  lemma NaNProgressShowsTip()
    ensures MotivationalMessage(NaN, false) == ActivityTip
  {
  }

  // ---------------------------------------------------------------------
  // Floating action button
  // ---------------------------------------------------------------------

  /** One evaluation of `fabExpanded`: expanded while scrolling up or at the
      top; the scroll value becomes the one compared against next time. */
  function FabStep(lastScrollValue: int, currentScroll: int): (r: (bool, int))
    ensures r.1 == currentScroll
    ensures r.0 <==> currentScroll < lastScrollValue || currentScroll <= 0
  {
    (currentScroll < lastScrollValue || currentScroll <= 0, currentScroll)
  }

  /** The button is always expanded at the top, collapses while scrolling
      down below the top, and a second evaluation at an unchanged position
      expands it only at the top. */
  lemma FabBehaviour(last: int, s: int)
    ensures s <= 0 ==> FabStep(last, s).0
    ensures 0 < s && last <= s ==> !FabStep(last, s).0
    ensures FabStep(FabStep(last, s).1, s).0 <==> s <= 0
  {
  }

  /** The remembered scroll value behind `fabExpanded`. */
  class FabState {
    var lastScrollValue: int

    constructor()
      ensures lastScrollValue == 0
    {
      lastScrollValue := 0;
    }

    method Evaluate(currentScroll: int) returns (expanded: bool)
      modifies this
      ensures (expanded, lastScrollValue) == FabStep(old(lastScrollValue), currentScroll)
    {
      var isScrollingUp := currentScroll < lastScrollValue;
      var isAtTop := currentScroll <= 0;
      lastScrollValue := currentScroll;
      expanded := isScrollingUp || isAtTop;
    }
  }
}
