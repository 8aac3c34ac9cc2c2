/** The persisted records of the backend (the JPA entities) and the errors its
    services raise. A Java reference that may be `null` is an `Option`; a
    relation to another entity is held as that entity's id. */
module Entities {
  import opened Base

  datatype User = User(
    id: int,
    firstName: Option<string>,
    lastName: Option<string>,
    email: Option<string>,
    contactNumber: Option<string>,
    password: Option<string>,
    role: Option<string>,
    walletBalance: Option<real>)

  datatype Organization = Organization(
    id: int,
    name: Option<string>,
    description: Option<string>,
    address: Option<string>,
    contactDetails: Option<string>,
    eligibilityProof: Option<string>,
    approvalStatus: Option<string>,
    userId: Option<int>)

  /** Dates are day numbers; `totalRaised` is the stored column, which the
      services do not keep in step with the donations. */
  datatype Campaign = Campaign(
    id: int,
    name: Option<string>,
    description: Option<string>,
    startDate: Option<int>,
    endDate: Option<int>,
    targetAmount: Option<real>,
    totalRaised: Option<real>,
    organizationId: Option<int>)

  datatype Donation = Donation(
    amount: Option<real>,
    date: int,
    status: Option<string>,
    kind: Option<string>,
    notes: Option<string>,
    userId: Option<int>,
    campaignId: Option<int>)

  /** One ledger entry: a "top-up" or a "donation" deduction. */
  datatype WalletTransaction = WalletTransaction(
    amount: real,
    transactionType: string,
    date: int,
    notes: string,
    userId: Option<int>)

  /** The exceptions the services throw, one per message they build. */
  datatype Error =
    | UserNotFound(userId: int)
    | InsufficientWalletBalance(currentBalance: real)
    | MissingDonationArguments
    | NonPositiveDonation
    | InsufficientForDonation(currentBalance: real, required: real)
    | CampaignNotFound(campaignId: int)
    | OrganizationNotFound(organizationId: int)
    | OrganizationNotFoundForUser(userId: int)
    | NonUniqueResult
    | NullAmount

  /** Java's string concatenation prints a null reference as "null". */
  function TextOf(s: Option<string>): string {
    if s.Some? then s.value else "null"
  }
}

/** The tables behind the Spring repositories. */
module Repositories {
  import opened Base
  import opened Entities

  /** A snapshot of every table: what the services' specifications talk about. */
  datatype Store = Store(
    users: map<int, User>,
    organizations: map<int, Organization>,
    campaigns: map<int, Campaign>,
    donations: seq<Donation>,
    transactions: seq<WalletTransaction>,
    nextUserId: int,
    nextOrganizationId: int,
    nextCampaignId: int)

  /** Rows are stored under their own id and generated ids are never reused. */
  ghost predicate WellKeyed(st: Store) {
    && (forall k :: k in st.users ==> st.users[k].id == k && k < st.nextUserId)
    && (forall k :: k in st.organizations ==> st.organizations[k].id == k && k < st.nextOrganizationId)
    && (forall k :: k in st.campaigns ==> st.campaigns[k].id == k && k < st.nextCampaignId)
  }

  /** The database the services share; each field is one repository. */
  class Db {
    var users: map<int, User>
    var organizations: map<int, Organization>
    var campaigns: map<int, Campaign>
    var donations: seq<Donation>
    var transactions: seq<WalletTransaction>
    var nextUserId: int
    var nextOrganizationId: int
    var nextCampaignId: int

    function State(): Store
      reads this
    {
      Store(users, organizations, campaigns, donations, transactions, nextUserId, nextOrganizationId, nextCampaignId)
    }

    constructor (initial: Store)
      ensures State() == initial
    {
      users, organizations, campaigns := initial.users, initial.organizations, initial.campaigns;
      donations, transactions := initial.donations, initial.transactions;
      nextUserId, nextOrganizationId, nextCampaignId := initial.nextUserId, initial.nextOrganizationId, initial.nextCampaignId;
    }
  }
}
