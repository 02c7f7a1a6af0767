/** The single-open toggle the timeline and the envelopes share
    (components/experience.tsx, components/testimonials.tsx): the index of the
    open card, or None when every card is closed. */
module Selection {
  import opened Opt

  /** `setActive(active === clicked ? null : clicked)`: clicking the open card
      closes it, clicking any other card makes it the only open one. */
  function Toggle(active: Option<nat>, clicked: nat): (r: Option<nat>)
    ensures r == None <==> active == Some(clicked)
    ensures r != None ==> r == Some(clicked)
  {
    if active == Some(clicked) then None else Some(clicked)
  }

  /** Whether the card at `index` is the open one. */
  predicate IsOpen(active: Option<nat>, index: nat) {
    active == Some(index)
  }

  /** After any click at most one card is open, and it is the clicked one. */
  lemma AtMostOneOpen(active: Option<nat>, clicked: nat, i: nat, j: nat)
    requires IsOpen(Toggle(active, clicked), i) && IsOpen(Toggle(active, clicked), j)
    ensures i == j == clicked
  {
  }

  /** A click flips the clicked card and leaves every other card closed, so
      the card that was open before closes when another one is clicked. */
  lemma ClickFlipsClicked(active: Option<nat>, clicked: nat, other: nat)
    requires other != clicked
    ensures IsOpen(Toggle(active, clicked), clicked) <==> !IsOpen(active, clicked)
    ensures !IsOpen(Toggle(active, clicked), other)
  {
  }

  /** Clicking the same card twice closes every card, unless that card was the open one, which ends open again. */
  lemma ClickTwiceCloses(active: Option<nat>, clicked: nat)
    ensures Toggle(Toggle(active, clicked), clicked) == if active == Some(clicked) then Some(clicked) else None
  {
  }
}
