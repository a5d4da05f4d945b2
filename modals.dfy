/** The five information dialogs (action, affect, circadian, motivation,
    spatial), each opened and closed by a pair of buttons through the same rule. */
module Modals {
  import opened Wrappers

  /** Python truthiness of a click count: absent (`None`) and 0 are false. */
  predicate Clicked(nClicks: Option<int>) {
    nClicks.Some? && nClicks.value != 0
  }

  /** The dialog's new state: flipped when either button has a truthy click
      count, unchanged otherwise. */
  function ToggleModal(openClicks: Option<int>, closeClicks: Option<int>, isOpen: bool): (open: bool)
    ensures open != isOpen <==> Clicked(openClicks) || Clicked(closeClicks)
  {
    if Clicked(openClicks) || Clicked(closeClicks) then !isOpen else isOpen
  }

  /** A click pair that flips the dialog flips it back when applied again. */
  lemma ToggleModalTwice(openClicks: Option<int>, closeClicks: Option<int>, isOpen: bool)
    ensures ToggleModal(openClicks, closeClicks, ToggleModal(openClicks, closeClicks, isOpen)) == isOpen
  {
  }
}
