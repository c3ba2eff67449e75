/** A stored customer with the columns that campaigns select by. Dates are day numbers. */
module CustomerProfile {
  import opened Basics
  import opened CampaignSegmentation
  import opened Consent

  datatype Profile = Profile(
    contact: Customer,
    name: string,
    gender: Gender,
    city: Option<string>,
    state: Option<string>,
    birthDay: Option<int>,
    lastPurchaseDay: Option<int>,
    interests: set<Id>)
}
