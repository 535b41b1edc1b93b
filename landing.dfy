/**
 * The landing screen (pages/Landing.tsx): a billing-cycle switch that drives
 * the displayed Pro price, and buttons that lead to the sign-in screen.
 */
module LandingPage {
  import opened Types

  datatype BillingCycle = Monthly | Yearly

  /** The switch's update: monthly becomes yearly and yearly becomes monthly. */
  function Toggled(b: BillingCycle): (r: BillingCycle)
    ensures r != b
  {
    if b == Monthly then Yearly else Monthly
  }

  /** Toggling twice restores the original cycle. */
  lemma ToggleTwice(b: BillingCycle)
    ensures Toggled(Toggled(b)) == b
  {
  }

  /** The price shown on the Pro card. */
  function ProPrice(b: BillingCycle): string
  {
    if b == Monthly then "$29" else "$24"
  }

  /** The price shown on the Hobby card, whatever the cycle. */
  function HobbyPrice(b: BillingCycle): string
  {
    "$0"
  }

  /**
   * Pro costs $29 monthly and $24 yearly, so the switch always changes the
   * Pro price; Hobby costs $0 either way.
   */
  lemma Prices(b: BillingCycle)
    ensures ProPrice(Monthly) == "$29" && ProPrice(Yearly) == "$24"
    ensures ProPrice(Toggled(b)) != ProPrice(b)
    ensures HobbyPrice(Toggled(b)) == HobbyPrice(b) == "$0"
  {
    assert "$29"[2] != "$24"[2];
  }

  /** Every clickable control of the landing screen. */
  datatype Control =
    | Features | Pricing | LogIn | GetStarted
    | StartDeploying | ReadTheDocs
    | BillingSwitch
    | StartForFree | UpgradeToPro

  /** Where a control navigates; `None` for the controls that have no navigation. */
  function Target(c: Control): (nav: Option<View>)
    ensures nav.Some? ==> nav.value == Auth
    ensures nav.None? <==> c in {Features, Pricing, ReadTheDocs, BillingSwitch}
  {
    match c
    case LogIn | GetStarted | StartDeploying | StartForFree | UpgradeToPro => Some(Auth)
    case Features | Pricing | ReadTheDocs | BillingSwitch => None
  }

  class LandingState {
    var billingCycle: BillingCycle

    ghost predicate Initial()
      reads this
    {
      billingCycle == Monthly
    }

    constructor ()
      ensures Initial()
    {
      billingCycle := Monthly;
    }

    /** A click on control `c`; `nav` is the view passed to `navigateTo`, if any. */
    method Click(c: Control) returns (nav: Option<View>)
      modifies this
      ensures nav == Target(c)
      ensures c == BillingSwitch ==> billingCycle == Toggled(old(billingCycle))
      ensures c != BillingSwitch ==> billingCycle == old(billingCycle)
    {
      if c == BillingSwitch {
        billingCycle := Toggled(billingCycle);
      }
      nav := Target(c);
    }
  }
}
