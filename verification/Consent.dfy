/** Contact consent of a customer and the rule that decides who may be contacted. */
module Consent {
  import opened Basics

  datatype ConsentStatus = Unknown | Granted | OptedOut

  datatype UnknownPolicy = BlockUnknown | AllowUnknownWithDeclaration

  datatype Customer = Customer(
    companyId: Id,
    phone: string,
    active: bool,
    consent: ConsentStatus,
    grantedAt: Option<int>,
    optedOutAt: Option<int>)

  predicate IsContactAllowed(customer: Customer, policy: UnknownPolicy) {
    match customer.consent
    case Granted => true
    case OptedOut => false
    case Unknown => policy == AllowUnknownWithDeclaration
  }

  predicate IsEligible(customer: Customer, policy: UnknownPolicy) {
    customer.active && IsContactAllowed(customer, policy)
  }

  /** A managed consent change: withdrawing keeps the time of the earlier grant, granting clears the opt-out. */
  function WithConsent(customer: Customer, granted: bool, now: int): Customer {
    if granted then customer.(consent := Granted, grantedAt := Some(now), optedOutAt := None)
    else customer.(consent := OptedOut, optedOutAt := Some(now))
  }

  /** A managed change: granted or withdrawn, and when. */
  datatype Change = Change(granted: bool, at: int)

  function AfterChanges(customer: Customer, changes: seq<Change>): Customer
    decreases |changes|
  {
    if changes == [] then customer
    else AfterChanges(WithConsent(customer, changes[0].granted, changes[0].at), changes[1..])
  }

  /** The time of the last grant, if there was one. */
  function LastGrant(changes: seq<Change>): Option<int> {
    if changes == [] then None
    else
      var later := LastGrant(changes[1..]);
      if later == None && changes[0].granted then Some(changes[0].at) else later
  }

  /**
   * After any changes the last one decides: the status, and the time of the opt-out, which a grant clears;
   * the time of the last grant survives every later opt-out. Nobody is eligible after a withdrawal.
   */
  lemma {:induction false} LastChangeDecides(customer: Customer, changes: seq<Change>, policy: UnknownPolicy)
    requires changes != []
    ensures var after, last := AfterChanges(customer, changes), changes[|changes| - 1];
      && after.consent == (if last.granted then Granted else OptedOut)
      && after.optedOutAt == (if last.granted then None else Some(last.at))
      && after.grantedAt == (if LastGrant(changes) == None then customer.grantedAt else LastGrant(changes))
      && (IsEligible(after, policy) <==> last.granted && customer.active)
      && after.companyId == customer.companyId && after.phone == customer.phone
    decreases |changes|
  {
    if |changes| > 1 {
      LastChangeDecides(WithConsent(customer, changes[0].granted, changes[0].at), changes[1..], policy);
    } else {
      assert AfterChanges(WithConsent(customer, changes[0].granted, changes[0].at), changes[1..])
          == WithConsent(customer, changes[0].granted, changes[0].at);
    }
  }
}
