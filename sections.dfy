/**
 * The expand/collapse control of a gallery section: a button that shows or
 * hides the section's expanded grid and relabels itself.
 */
module Sections {
  import opened Wrappers

  /**
   * The visible state of one section's control: whether the grid carries the
   * shown class, whether the button carries the expanded class, and the
   * button's label text when the button has a label element.
   */
  datatype Expansion = Expansion(gridShown: bool, buttonExpanded: bool, labelText: Option<string>)

  function LabelFor(expanded: bool): (l: string)
  {
    if expanded then "Show Less" else "View All"
  }

  /** Button and label agree with the grid. */
  predicate InSync(e: Expansion)
  {
    e.buttonExpanded == e.gridShown && (e.labelText.Some? ==> e.labelText.value == LabelFor(e.gridShown))
  }

  /**
   * One toggle: a no-op when the grid or the button is missing; otherwise the
   * grid flips, and the button and its label follow the grid's new state.
   */
  function Toggled(e: Expansion, targetsPresent: bool): (r: Expansion)
    ensures !targetsPresent ==> r == e
    ensures targetsPresent ==> r.gridShown == !e.gridShown && InSync(r) && r.labelText.Some? == e.labelText.Some?
    ensures targetsPresent && r.gridShown && r.labelText.Some? ==> r.labelText.value == "Show Less"
    ensures targetsPresent && !r.gridShown && r.labelText.Some? ==> r.labelText.value == "View All"
  {
    if !targetsPresent then e
    else
      var expand := !e.gridShown;
      Expansion(expand, expand, if e.labelText.Some? then Some(LabelFor(expand)) else None)
  }

  /** Toggling twice restores a control whose button and label agreed with its grid. */
  lemma ToggleTwiceRestores(e: Expansion, targetsPresent: bool)
    requires InSync(e)
    ensures Toggled(Toggled(e, targetsPresent), targetsPresent) == e
  {
  }

  /** Since the state is read from the grid, toggling twice brings any control into sync with its grid. */
  lemma ToggleTwiceResyncs(e: Expansion)
    ensures var r := Toggled(Toggled(e, true), true);
      r.gridShown == e.gridShown && InSync(r)
  {
  }

  /** The control of one section, updated in place by `toggleSection`. */
  class ExpandControl {
    /** The `{section}-expanded` grid exists. */
    const gridPresent: bool
    /** The clicked button exists. */
    const buttonPresent: bool
    var gridShown: bool
    var buttonExpanded: bool
    var labelText: Option<string>
    /** Smooth scrolls scheduled 100 ms after an expansion; the scroll itself is not modelled. */
    var scrollsScheduled: nat

    function View(): (e: Expansion)
      reads this
    {
      Expansion(gridShown, buttonExpanded, labelText)
    }

    constructor (gridPresent: bool, buttonPresent: bool, initial: Expansion)
      ensures this.gridPresent == gridPresent && this.buttonPresent == buttonPresent
      ensures View() == initial && scrollsScheduled == 0
    {
      this.gridPresent, this.buttonPresent := gridPresent, buttonPresent;
      gridShown, buttonExpanded, labelText := initial.gridShown, initial.buttonExpanded, initial.labelText;
      scrollsScheduled := 0;
    }

    method Toggle()
      modifies this`gridShown, this`buttonExpanded, this`labelText, this`scrollsScheduled
      ensures View() == Toggled(old(View()), gridPresent && buttonPresent)
      ensures scrollsScheduled == old(scrollsScheduled) + if gridPresent && buttonPresent && !old(gridShown) then 1 else 0
    {
      if !gridPresent || !buttonPresent {
        return;
      }
      var isExpanded := gridShown;
      if isExpanded {
        gridShown := false;
        buttonExpanded := false;
        if labelText.Some? { labelText := Some("View All"); }
      } else {
        gridShown := true;
        buttonExpanded := true;
        if labelText.Some? { labelText := Some("Show Less"); }
        scrollsScheduled := scrollsScheduled + 1;
      }
    }
  }
}
