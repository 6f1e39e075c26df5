/**
 * The copy buttons of the pitch-script viewer (`copyToClipboard` and the
 * `copiedSection` state in src/components/SalesPitchScript.tsx). A click writes
 * the section body to the clipboard, marks the section as copied and schedules
 * a timer that clears the mark 2000 ms later.
 *
 * The browser's clock and timer queue are made explicit: `now` is the current
 * time in milliseconds, `Wait` lets time pass while no timer is due, and
 * `TimerFires` runs the earliest due timer. Timers of equal delay fire in the
 * order they were scheduled.
 */
module PitchCopy {
  import opened Wrappers
  import opened PitchTemplates

  /** The delay of the timer that clears the copied mark. */
  const CopiedFeedbackMs := 2000

  predicate Ascending(xs: seq<int>) {
    forall i, j :: 0 <= i < j < |xs| ==> xs[i] <= xs[j]
  }

  /** The label of a section's copy button: "Copied!" for the marked section, "Copy" otherwise. */
  function CopyLabel(copiedSection: Option<string>, title: string): (caption: string)
    ensures caption == "Copied!" <==> copiedSection == Some(title)
    ensures caption == "Copy" <==> copiedSection != Some(title)
  {
    if copiedSection == Some(title) then "Copied!" else "Copy"
  }

  /**
   * In the six-section catalogue at most one button reads "Copied!": the one whose
   * section title is the mark.
   */
  lemma OneCopiedLabel(c: SectionCopy, inp: Inputs, copiedSection: Option<string>, i: nat, j: nat)
    requires i < 6 && j < 6
    requires CopyLabel(copiedSection, PitchSections(c, inp)[i].title) == "Copied!"
    ensures CopyLabel(copiedSection, PitchSections(c, inp)[j].title) == "Copied!" <==> i == j
  {
    SectionTitlesDistinct(c, inp, i, j);
  }

  /** The copy feedback as written: every copy schedules its own clear, none is cancelled. */
  class CopyFeedback {
    var now: int
    var clipboard: string
    var copiedSection: Option<string>
    /** Due times of the scheduled clears, earliest first. */
    var pending: seq<int>
    /** When the last copy happened. */
    var lastCopyAt: int

    ghost predicate Valid()
      reads this
    {
      Ascending(pending)
      && (forall i :: 0 <= i < |pending| ==> now <= pending[i] <= now + CopiedFeedbackMs)
      && (copiedSection.Some? ==> |pending| > 0)
    }

    constructor (clipboard0: string)
      ensures Valid()
      ensures now == 0 && clipboard == clipboard0 && copiedSection == None && pending == []
    {
      now, clipboard, copiedSection, pending, lastCopyAt := 0, clipboard0, None, [], 0;
    }

    /** A click on a copy button: the body goes to the clipboard, the title becomes the mark. */
    method CopyToClipboard(content: string, section: string)
      requires Valid()
      modifies this
      ensures Valid()
      ensures clipboard == content && copiedSection == Some(section)
      ensures pending == old(pending) + [now + CopiedFeedbackMs]
      ensures now == old(now) && lastCopyAt == now
    {
      clipboard := content;
      copiedSection := Some(section);
      pending := pending + [now + CopiedFeedbackMs];
      lastCopyAt := now;
    }

    /** `dt` milliseconds pass without any timer falling due. */
    method Wait(dt: nat)
      requires Valid()
      requires pending == [] || now + dt < pending[0]
      modifies this
      ensures Valid()
      ensures now == old(now) + dt
      ensures clipboard == old(clipboard) && copiedSection == old(copiedSection)
      ensures pending == old(pending) && lastCopyAt == old(lastCopyAt)
    {
      now := now + dt;
    }

    /** The earliest scheduled clear runs: it clears the mark whoever set it. */
    method TimerFires()
      requires Valid() && pending != []
      modifies this
      ensures Valid()
      ensures now == old(pending[0]) && pending == old(pending[1..])
      ensures copiedSection == None
      ensures clipboard == old(clipboard) && lastCopyAt == old(lastCopyAt)
    {
      now := pending[0];
      pending := pending[1..];
      copiedSection := None;
    }
  }

  /**
   * Two copies 500 ms apart: the first copy's timer clears the second copy's mark
   * 1500 ms after that copy, while the second timer is still pending.
   */
  method EarlyClearAsWritten() returns (shownFor: int, mark: Option<string>, stillPending: nat)
    ensures shownFor == 1500 && mark == None && stillPending == 1
  {
    var f := new CopyFeedback("");
    f.CopyToClipboard("first body", "Opening & Rapport Building");
    f.Wait(500);
    f.CopyToClipboard("second body", "Problem Identification");
    var secondAt := f.lastCopyAt;
    f.TimerFires();
    shownFor, mark, stillPending := f.now - secondAt, f.copiedSection, |f.pending|;
  }

  /**
   * The copy feedback with the last copy winning: a copy cancels the clear that is
   * still pending (`clearTimeout`) before it schedules its own, so the mark is
   * cleared exactly `CopiedFeedbackMs` after the copy that set it.
   */
  class LastCopyWinsFeedback {
    var now: int
    var clipboard: string
    var copiedSection: Option<string>
    /** Due time of the one scheduled clear, if any. */
    var pending: Option<int>
    var lastCopyAt: int

    ghost predicate Valid()
      reads this
    {
      (copiedSection.Some? <==> pending.Some?)
      && (pending.Some? ==> pending.value == lastCopyAt + CopiedFeedbackMs && now <= pending.value)
    }

    constructor (clipboard0: string)
      ensures Valid()
      ensures now == 0 && clipboard == clipboard0 && copiedSection == None && pending == None
    {
      now, clipboard, copiedSection, pending, lastCopyAt := 0, clipboard0, None, None, 0;
    }

    method CopyToClipboard(content: string, section: string)
      requires Valid()
      modifies this
      ensures Valid()
      ensures clipboard == content && copiedSection == Some(section)
      ensures pending == Some(now + CopiedFeedbackMs)
      ensures now == old(now) && lastCopyAt == now
    {
      clipboard := content;
      copiedSection := Some(section);
      pending := Some(now + CopiedFeedbackMs);
      lastCopyAt := now;
    }

    method Wait(dt: nat)
      requires Valid()
      requires pending == None || now + dt < pending.value
      modifies this
      ensures Valid()
      ensures now == old(now) + dt
      ensures clipboard == old(clipboard) && copiedSection == old(copiedSection)
      ensures pending == old(pending) && lastCopyAt == old(lastCopyAt)
    {
      now := now + dt;
    }

    /** The one pending clear runs, exactly `CopiedFeedbackMs` after the last copy. */
    method TimerFires()
      requires Valid() && pending.Some?
      modifies this
      ensures Valid()
      ensures now == old(lastCopyAt) + CopiedFeedbackMs
      ensures old(copiedSection).Some? && copiedSection == None && pending == None
      ensures clipboard == old(clipboard) && lastCopyAt == old(lastCopyAt)
    {
      now := pending.value;
      pending := None;
      copiedSection := None;
    }
  }

  /** The same two copies: the second mark stays for the full 2000 ms. */
  method FullWindowLastCopyWins() returns (markAt2000: Option<string>, shownFor: int)
    ensures markAt2000 == Some("Problem Identification") && shownFor == CopiedFeedbackMs
  {
    var f := new LastCopyWinsFeedback("");
    f.CopyToClipboard("first body", "Opening & Rapport Building");
    f.Wait(500);
    f.CopyToClipboard("second body", "Problem Identification");
    var secondAt := f.lastCopyAt;
    f.Wait(1500);
    markAt2000 := f.copiedSection;
    f.TimerFires();
    shownFor := f.now - secondAt;
  }
}
