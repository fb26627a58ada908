/**
 * The quick-help side panels of the identity provider create wizards: a step counter moved by a
 * previous and a next button, each panel shown when its id equals the counter. Each template has
 * its own last step; the enterprise template's next button stops at 0 instead.
 */
module WizardHelp {

  /** The templates with a help panel. */
  datatype HelpTemplate = Apple | Facebook | Google | Hypr | Swe | Enterprise

  /** The state at which the next button stops: the last step, or 0 for the enterprise template. */
  function NextStop(t: HelpTemplate): nat
  {
    match t
    case Apple => 5
    case Facebook => 3
    case Google => 3
    case Hypr => 4
    case Swe => 3
    case Enterprise => 0
  }

  /** The ids of the template's help panels, in order. */
  function PanelIds(t: HelpTemplate): seq<int>
  {
    match t
    case Apple => [0, 1, 2, 3, 4, 5]
    case Facebook => [0, 1, 2, 3]
    case Google => [0, 1, 2, 3]
    case Hypr => [0, 1, 2, 3, 4]
    case Swe => [0, 1, 2, 3]
    case Enterprise => [1]
  }

  /** The previous (left) button: 0 stays 0, any other state goes down by one. */
  function Previous(s: int): (r: int)
    ensures s == 0 ==> r == 0
    ensures s != 0 ==> r == s - 1
  {
    if s == 0 then 0 else s - 1
  }

  /** The next (right) button: the stop state stays, any other state goes up by one. */
  function Next(t: HelpTemplate, s: int): (r: int)
    ensures s == NextStop(t) ==> r == s
    ensures s != NextStop(t) ==> r == s + 1
  {
    if s == NextStop(t) then NextStop(t) else s + 1
  }

  predicate IsPreviousButtonDisabled(s: int)
  {
    s == 0
  }

  predicate IsNextButtonDisabled(t: HelpTemplate, s: int)
  {
    s == NextStop(t)
  }

  datatype Color = Grey | Orange

  /** A button is grey iff it is disabled, orange otherwise. */
  function ButtonColor(disabled: bool): (c: Color)
    ensures c == Grey <==> disabled
    ensures c == Orange <==> !disabled
  {
    if disabled then Grey else Orange
  }

  /** The panels shown for a state: those whose id equals it. */
  function DisplayedPanels(ids: seq<int>, s: int): (r: seq<int>)
    ensures forall k :: 0 <= k < |r| ==> r[k] == s
    ensures |r| > 0 <==> s in ids
  {
    if ids == [] then []
    else (if ids[0] == s then [ids[0]] else []) + DisplayedPanels(ids[1..], s)
  }

  /** A bounded template's panel ids are 0 up to its last step, each once. */
  lemma PanelIdsAreSteps(t: HelpTemplate)
    requires t != Enterprise
    ensures |PanelIds(t)| == NextStop(t) + 1
    ensures forall k :: 0 <= k < |PanelIds(t)| ==> PanelIds(t)[k] == k
  {
  }

  /** No panel id of a template repeats, so a shown panel is shown once. */
  lemma {:induction false} DisplayedOnce(ids: seq<int>, s: int)
    requires forall i, j :: 0 <= i < j < |ids| ==> ids[i] != ids[j]
    ensures |DisplayedPanels(ids, s)| <= 1
  {
    if ids != [] {
      DisplayedOnce(ids[1..], s);
      if ids[0] == s {
        assert s !in ids[1..];
      }
    }
  }

  /** For a bounded template exactly the states 0 to the last step show one panel; the enterprise one shows one only at 1. */
  lemma OnePanelShown(t: HelpTemplate, s: int)
    ensures t != Enterprise ==> (|DisplayedPanels(PanelIds(t), s)| == 1 <==> 0 <= s <= NextStop(t))
    ensures t == Enterprise ==> (|DisplayedPanels(PanelIds(t), s)| == 1 <==> s == 1)
  {
    DisplayedOnce(PanelIds(t), s);
  }

  /** Both buttons keep a bounded template's state between 0 and its last step. */
  lemma StepsStayInRange(t: HelpTemplate, s: int)
    requires t != Enterprise && 0 <= s <= NextStop(t)
    ensures 0 <= Previous(s) <= NextStop(t)
    ensures 0 <= Next(t, s) <= NextStop(t)
  {
  }

  /** `k` clicks on next. */
  function NextTimes(t: HelpTemplate, s: int, k: nat): int
  {
    if k == 0 then s else Next(t, NextTimes(t, s, k - 1))
  }

  /** From the first step, clicks on next climb one step each until the last step, and stay there. */
  lemma {:induction false} NextTimesFromStart(t: HelpTemplate, k: nat)
    requires t != Enterprise
    ensures NextTimes(t, 0, k) == if k < NextStop(t) then k else NextStop(t)
  {
    if k > 0 {
      NextTimesFromStart(t, k - 1);
    }
  }

  /** The enterprise template's next button has no upper bound: from 1, `k` clicks reach `1 + k`. */
  lemma {:induction false} EnterpriseNextUnbounded(k: nat)
    ensures NextTimes(Enterprise, 1, k) == 1 + k
  {
    if k > 0 {
      EnterpriseNextUnbounded(k - 1);
    }
  }

  /** Going next and then previous returns to the state, except at the stop state. */
  lemma PreviousUndoesNext(t: HelpTemplate, s: int)
    requires s != NextStop(t) && s != -1
    ensures Previous(Next(t, s)) == s
  {
  }

  class WizardHelpPanel {
    const template: HelpTemplate
    var currentState: int

    /** The state after the effect on the `current` prop. */
    constructor(template: HelpTemplate, current: int)
      ensures this.template == template && currentState == current
    {
      this.template := template;
      currentState := current;
    }

    /** The effect on the `current` prop: the state follows it. */
    method OnCurrentChange(current: int)
      modifies this
      ensures currentState == current
    {
      currentState := current;
    }

    method HandleClickPrevious()
      modifies this
      ensures currentState == Previous(old(currentState))
    {
      currentState := if currentState == 0 then 0 else currentState - 1;
    }

    method HandleClickNext()
      modifies this
      ensures currentState == Next(template, old(currentState))
    {
      currentState := if currentState == NextStop(template) then NextStop(template) else currentState + 1;
    }

    function PreviousButtonColor(): Color
      reads this
    {
      ButtonColor(IsPreviousButtonDisabled(currentState))
    }

    function NextButtonColor(): Color
      reads this
    {
      ButtonColor(IsNextButtonDisabled(template, currentState))
    }

    function Displayed(): seq<int>
      reads this
    {
      DisplayedPanels(PanelIds(template), currentState)
    }
  }
}
