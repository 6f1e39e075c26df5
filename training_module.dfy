/**
 * A training-module card (src/components/TrainingModule.tsx): the level badge,
 * the completion check, the progress bar, the start button's caption, and the
 * `handleStart` lifecycle that shows "Loading..." for the simulated one-second
 * load, calls `onStart`, logs an error if `onStart` throws, and always ends the
 * loading state.
 */
module ModuleCard {
  import opened Wrappers
  import opened Text

  datatype Level = Beginner | Intermediate | Advanced

  datatype BadgeColour = Green | Yellow | Red

  /** The level as the badge prints it. */
  function LevelText(level: Level): (text: string)
    ensures text == "Beginner" <==> level == Beginner
    ensures text == "Intermediate" <==> level == Intermediate
    ensures text == "Advanced" <==> level == Advanced
  {
    match level
    case Beginner => "Beginner"
    case Intermediate => "Intermediate"
    case Advanced => "Advanced"
  }

  /** Beginner is green, Intermediate yellow, and every other level red. */
  function Badge(level: Level): (colour: BadgeColour)
    ensures colour == Green <==> level == Beginner
    ensures colour == Yellow <==> level == Intermediate
    ensures colour == Red <==> level != Beginner && level != Intermediate
  {
    if level == Beginner then Green else if level == Intermediate then Yellow else Red
  }

  /** The badge's colour classes. */
  function BadgeClasses(colour: BadgeColour): string {
    match colour
    case Green => "bg-green-100 text-green-700"
    case Yellow => "bg-yellow-100 text-yellow-700"
    case Red => "bg-red-100 text-red-700"
  }

  /** Different levels get different badge classes. */
  lemma BadgeClassesDistinct(a: Level, b: Level)
    requires BadgeClasses(Badge(a)) == BadgeClasses(Badge(b))
    ensures a == b
  {
    assert BadgeClasses(Badge(a))[3] == BadgeClasses(Badge(b))[3];
  }

  /** The props a card may be given without (`progress`, `isCompleted`) and their defaults. */
  datatype CardProps = CardProps(level: Level, progress: Option<int>, isCompleted: Option<bool>)

  datatype Card = Card(level: Level, progress: int, isCompleted: bool)

  function ResolveCard(props: CardProps): (card: Card)
    ensures card.level == props.level
    ensures props.progress.Some? ==> card.progress == props.progress.value
    ensures props.progress.None? ==> card.progress == 0
    ensures props.isCompleted.Some? ==> card.isCompleted == props.isCompleted.value
    ensures props.isCompleted.None? ==> !card.isCompleted
  {
    Card(props.level, props.progress.GetOr(0), props.isCompleted.GetOr(false))
  }

  /**
   * The progress block: shown only for a positive progress, with the percentage
   * text that is also the bar's width. The value is not clamped to 100.
   */
  function ProgressText(progress: int): (r: Option<string>)
    ensures r.Some? <==> progress > 0
    ensures r.Some? ==> |r.value| >= 2 && r.value[|r.value| - 1] == '%'
    ensures r.Some? ==> ParseNat(r.value[..|r.value| - 1]) == Some(progress)
  {
    if progress > 0 then
      var digits := NatToString(progress);
      ParseNatToString(progress);
      assert (digits + "%")[..|digits|] == digits;
      Some(digits + "%")
    else None
  }

  /** The start button's caption. */
  function StartCaption(isLoading: bool, progress: int): (caption: string)
    ensures caption == "Loading..." <==> isLoading
    ensures !isLoading ==> (caption == "Continue" <==> progress > 0)
    ensures !isLoading ==> (caption == "Start Module" <==> progress <= 0)
  {
    if isLoading then "Loading..." else if progress > 0 then "Continue" else "Start Module"
  }

  /** Everything the card shows that depends on its props and its state. */
  datatype CardView = CardView(
    levelText: string, badge: BadgeColour, completedCheck: bool,
    progressText: Option<string>, caption: string, disabled: bool)

  /**
   * The card as shown: the button is disabled exactly while loading, the progress
   * block is there exactly for a positive progress, and the check mark exactly for
   * a completed module.
   */
  function View(card: Card, isLoading: bool): (v: CardView)
    ensures v.disabled <==> isLoading
    ensures v.progressText.Some? <==> card.progress > 0
    ensures v.completedCheck <==> card.isCompleted
  {
    CardView(LevelText(card.level), Badge(card.level), card.isCompleted,
             ProgressText(card.progress), StartCaption(isLoading, card.progress), isLoading)
  }

  /**
   * Outside loading, the button says "Continue" exactly when the progress block is
   * shown; the button is disabled exactly while it says "Loading...".
   */
  lemma ContinueIffProgressShown(card: Card, isLoading: bool)
    ensures !isLoading ==> (View(card, isLoading).caption == "Continue" <==> View(card, isLoading).progressText.Some?)
    ensures View(card, isLoading).disabled <==> View(card, isLoading).caption == "Loading..."
  {
  }

  /**
   * Completion shows only the check mark: a completed card and an uncompleted one
   * with the same level and progress offer the same button, so a completed module
   * with no progress still says "Start Module".
   */
  lemma CompletionOnlyAddsCheck(level: Level, progress: int, isLoading: bool)
    ensures View(Card(level, progress, true), isLoading).caption == View(Card(level, progress, false), isLoading).caption
    ensures View(Card(level, progress, true), isLoading).completedCheck
    ensures !View(Card(level, progress, false), isLoading).completedCheck
    ensures !isLoading && progress <= 0 ==> View(Card(level, progress, true), isLoading).caption == "Start Module"
  {
  }

  /**
   * A mounted card. `pendingStart` says that a `handleStart` is waiting for its
   * simulated load; `onStartCalls` and `errorsLogged` count what the card has done
   * to the outside; `accepted` counts the clicks that started a load.
   */
  class TrainingModuleCard {
    const card: Card
    var isLoading: bool
    var pendingStart: bool
    var onStartCalls: nat
    var errorsLogged: nat
    ghost var accepted: nat

    ghost predicate Valid()
      reads this
    {
      (isLoading <==> pendingStart)
      && onStartCalls + (if pendingStart then 1 else 0) == accepted
      && errorsLogged <= onStartCalls
    }

    constructor (props: CardProps)
      ensures Valid()
      ensures card == ResolveCard(props)
      ensures !isLoading && !pendingStart && onStartCalls == 0 && errorsLogged == 0
    {
      card := ResolveCard(props);
      isLoading, pendingStart, onStartCalls, errorsLogged := false, false, 0, 0;
      accepted := 0;
    }

    function CurrentView(): CardView
      reads this
    {
      View(card, isLoading)
    }

    /**
     * A click on the start button. While loading the button is disabled and the click
     * does nothing; otherwise `handleStart` sets the loading state and starts the load.
     */
    method ClickStart()
      requires Valid()
      modifies this
      ensures Valid()
      ensures old(isLoading) ==> isLoading && pendingStart && accepted == old(accepted)
      ensures !old(isLoading) ==> isLoading && pendingStart && accepted == old(accepted) + 1
      ensures onStartCalls == old(onStartCalls) && errorsLogged == old(errorsLogged)
    {
      if !isLoading {
        isLoading := true;
        pendingStart := true;
        accepted := accepted + 1;
      }
    }

    /**
     * The simulated load ends: `onStart` is called once; if it throws, the error is
     * logged; in either case the loading state ends.
     */
    method FinishStart(onStartThrows: bool)
      requires Valid() && pendingStart
      modifies this
      ensures Valid()
      ensures !isLoading && !pendingStart && accepted == old(accepted)
      ensures onStartCalls == old(onStartCalls) + 1
      ensures errorsLogged == old(errorsLogged) + (if onStartThrows then 1 else 0)
    {
      onStartCalls := onStartCalls + 1;
      if onStartThrows {
        errorsLogged := errorsLogged + 1;
      }
      isLoading := false;
      pendingStart := false;
    }
  }

  /**
   * Two clicks during one load start one load: `onStart` runs once and the button
   * reads "Start Module" again afterwards, even when `onStart` throws.
   */
  method DoubleClickWhileLoading(onStartThrows: bool) returns (calls: nat, errors: nat, caption: string)
    ensures calls == 1 && errors == (if onStartThrows then 1 else 0) && caption == "Start Module"
  {
    var c := new TrainingModuleCard(CardProps(Beginner, None, None));
    c.ClickStart();
    assert c.CurrentView().caption == "Loading...";
    c.ClickStart();
    c.FinishStart(onStartThrows);
    calls, errors, caption := c.onStartCalls, c.errorsLogged, c.CurrentView().caption;
  }
}
