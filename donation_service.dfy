/** Donations paid from the wallet, and the queries and statistics over them. */
module DonationService {
  import opened Base
  import opened Entities
  import opened Repositories
  import opened UserService
  import WalletTransactionService

  const CompletedStatus := "completed"
  const WalletKind := "wallet"
  const DonationNotePrefix := "Donation to campaign: "

  /** The response map of `processDonation`: `success` true with the saved
      donation and the new balance, or `success` false with the error. */
  datatype DonationResponse =
    | Donated(donation: Donation, newBalance: real)
    | Rejected(error: Error)

  /** The ledger note written for a donation to a campaign with this name. */
  function LedgerNote(campaignName: Option<string>): string {
    DonationNotePrefix + TextOf(campaignName)
  }

  /** The donation record written on success. */
  function Record(amount: real, now: int, notes: Option<string>, userId: int, campaignId: int): Donation {
    Donation(Some(amount), now, Some(CompletedStatus), Some(WalletKind), notes, Some(userId), Some(campaignId))
  }

  /** `processDonation`: the new store and the response. Every check comes
      before the first write, so a rejected request leaves the store as it was. */
  function Donate(st: Store, userId: Option<int>, campaignId: Option<int>, amount: Option<real>, notes: Option<string>, now: int)
    : (r: (Store, DonationResponse))
    ensures r.1.Rejected? ==> r.0 == st
    ensures userId.None? || campaignId.None? || amount.None? ==> r.1 == Rejected(MissingDonationArguments)
    ensures userId.Some? && campaignId.Some? && amount.Some? ==>
      var u, c, a := userId.value, campaignId.value, amount.value;
      && (a <= 0.0 ==> r.1 == Rejected(NonPositiveDonation))
      && (a > 0.0 && u !in st.users ==> r.1 == Rejected(UserNotFound(u)))
      && ((a > 0.0 && u in st.users && BalanceOf(st.users, u) < a) ==>
            r.1 == Rejected(InsufficientForDonation(BalanceOf(st.users, u), a)))
      && ((a > 0.0 && u in st.users && BalanceOf(st.users, u) >= a && c !in st.campaigns) ==>
            r.1 == Rejected(CampaignNotFound(c)))
      && (r.1.Donated? <==> a > 0.0 && u in st.users && a <= BalanceOf(st.users, u) && c in st.campaigns)
      && (r.1.Donated? ==>
            && r.1.donation == Record(a, now, notes, u, c)
            && r.0.donations == st.donations + [r.1.donation]
            && r.0.transactions == st.transactions
                 + [WalletTransactionService.Entry(WalletTransactionService.DonationType, u, a,
                      Some(LedgerNote(st.campaigns[c].name)), WalletTransactionService.DefaultDonationNote, now)]
            && OnlyBalanceChanged(st.(donations := r.0.donations, transactions := r.0.transactions), r.0, u)
            && BalanceOf(r.0.users, u) == BalanceOf(st.users, u) - a
            && r.1.newBalance == BalanceOf(r.0.users, u))
  {
    if userId.None? || campaignId.None? || amount.None? then (st, Rejected(MissingDonationArguments))
    else
      var u, c, a := userId.value, campaignId.value, amount.value;
      if a <= 0.0 then (st, Rejected(NonPositiveDonation))
      else match HasSufficientBalance(st, u, a)
        case Failure(e) => (st, Rejected(e))
        case Success(false) => (st, Rejected(InsufficientForDonation(GetWalletBalance(st, u).value, a)))
        case Success(true) =>
          if u !in st.users then (st, Rejected(UserNotFound(u)))
          else if c !in st.campaigns then (st, Rejected(CampaignNotFound(c)))
          else
            var campaign := st.campaigns[c];
            match WalletTransactionService.DonationDeduction(st, u, a, Some(LedgerNote(campaign.name)), now)
            case Failure(e) => (st, Rejected(e))
            case Success(st1) =>
              var donation := Record(a, now, notes, u, c);
              var st2 := st1.(donations := st1.donations + [donation]);
              (st2, Donated(donation, GetWalletBalance(st2, u).value))
  }

  /** A donation keeps the ledger consistent with the balances: the balance
      change is exactly the new "donation" entry. */
  lemma DonateAccounted(st: Store, userId: Option<int>, campaignId: Option<int>, amount: Option<real>, notes: Option<string>, now: int)
    ensures WalletTransactionService.LedgerAccounts(st, Donate(st, userId, campaignId, amount, notes, now).0)
  {
    var (st2, resp) := Donate(st, userId, campaignId, amount, notes, now);
    if resp.Donated? {
      var u, c, a := userId.value, campaignId.value, amount.value;
      var note := Some(LedgerNote(st.campaigns[c].name));
      WalletTransactionService.DonationAccounted(st, u, a, note, now);
      assert st2.users == WalletTransactionService.DonationDeduction(st, u, a, note, now).value.users;
    }
  }

  /** A donation never drives a balance below zero. */
  lemma DonateKeepsNonNegative(st: Store, userId: Option<int>, campaignId: Option<int>, amount: Option<real>, notes: Option<string>, now: int)
    requires NonNegativeBalances(st)
    ensures NonNegativeBalances(Donate(st, userId, campaignId, amount, notes, now).0)
  {
    var (st2, resp) := Donate(st, userId, campaignId, amount, notes, now);
    if resp.Donated? {
      var u, a := userId.value, amount.value;
      DebitPreservesNonNegative(st, u, a);
      assert st2.users == Debit(st, u, a).value.users;
    }
  }

  /** A worked case: a balance of 100 pays a donation of 40 and reports 60. */
  lemma DonateScenario(st: Store, now: int)
    requires 1 in st.users && st.users[1].walletBalance == Some(100.0) && 7 in st.campaigns
    ensures var (st2, resp) := Donate(st, Some(1), Some(7), Some(40.0), None, now);
      && resp.Donated? && resp.newBalance == 60.0
      && |st2.donations| == |st.donations| + 1 && |st2.transactions| == |st.transactions| + 1
    ensures Donate(st, Some(1), Some(7), Some(140.0), None, now).1 == Rejected(InsufficientForDonation(100.0, 140.0))
  {
  }

  predicate ByUser(d: Donation, userId: int) {
    d.userId == Some(userId)
  }

  predicate ByCampaign(d: Donation, campaignId: int) {
    d.campaignId == Some(campaignId)
  }

  /** `getDonationsByUserId`: the donations linked to that user, in store order. */
  function GetDonationsByUserId(ds: seq<Donation>, userId: int): (r: seq<Donation>)
    ensures forall d :: d in r <==> d in ds && d.userId == Some(userId)
  {
    Filter(ds, d => ByUser(d, userId))
  }

  /** `getDonationsByCampaignId`: the donations linked to that campaign, in store order. */
  function GetDonationsByCampaignId(ds: seq<Donation>, campaignId: int): (r: seq<Donation>)
    ensures forall d :: d in r <==> d in ds && d.campaignId == Some(campaignId)
  {
    Filter(ds, d => ByCampaign(d, campaignId))
  }

  /** Appending one donation extends exactly the lists of its user and its campaign. */
  lemma UserQueryAppend(ds: seq<Donation>, d: Donation, id: int)
    ensures GetDonationsByUserId(ds + [d], id) == GetDonationsByUserId(ds, id) + (if ByUser(d, id) then [d] else [])
  {
    var p := x => ByUser(x, id);
    FilterAppend(ds, [d], p);
    assert Filter([d], p) == (if p(d) then [d] else []) + Filter([], p);
  }

  lemma CampaignQueryAppend(ds: seq<Donation>, d: Donation, id: int)
    ensures GetDonationsByCampaignId(ds + [d], id) == GetDonationsByCampaignId(ds, id) + (if ByCampaign(d, id) then [d] else [])
  {
    var p := x => ByCampaign(x, id);
    FilterAppend(ds, [d], p);
    assert Filter([d], p) == (if p(d) then [d] else []) + Filter([], p);
  }

  /** A successful donation is appended to the donor's and the campaign's lists
      and to no other campaign's. */
  lemma DonateExtendsQueries(st: Store, u: int, c: int, a: real, notes: Option<string>, now: int, other: int)
    requires Donate(st, Some(u), Some(c), Some(a), notes, now).1.Donated?
    ensures var ds := Donate(st, Some(u), Some(c), Some(a), notes, now).0.donations;
      var d := Record(a, now, notes, u, c);
      && GetDonationsByUserId(ds, u) == GetDonationsByUserId(st.donations, u) + [d]
      && GetDonationsByCampaignId(ds, c) == GetDonationsByCampaignId(st.donations, c) + [d]
      && (other != c ==> GetDonationsByCampaignId(ds, other) == GetDonationsByCampaignId(st.donations, other))
  {
    var d := Record(a, now, notes, u, c);
    var ds := Donate(st, Some(u), Some(c), Some(a), notes, now).0.donations;
    assert ds == st.donations + [d];
    UserQueryAppend(st.donations, d, u);
    CampaignQueryAppend(st.donations, d, c);
    if other != c {
      CampaignQueryAppend(st.donations, d, other);
      assert !ByCampaign(d, other);
    }
  }

  /** The statistics map of `getDonationStats`. */
  datatype Stats = Stats(totalAmount: real, totalCount: nat, averageAmount: real)

  predicate AmountsPresent(ds: seq<Donation>) {
    forall i :: 0 <= i < |ds| ==> ds[i].amount.Some?
  }

  /** The sum of the amounts, oldest first. */
  function TotalAmount(ds: seq<Donation>): real
    requires AmountsPresent(ds)
  {
    if ds == [] then 0.0 else TotalAmount(ds[..|ds| - 1]) + ds[|ds| - 1].amount.value
  }

  /** `getDonationStats`. Unboxing a null amount throws, so one donation
      without an amount makes the whole call fail. */
  function GetDonationStats(ds: seq<Donation>): (r: Result<Stats, Error>)
    ensures r.Failure? <==> exists i :: 0 <= i < |ds| && ds[i].amount.None?
    ensures r.Failure? ==> r.error == NullAmount
    ensures r.Success? ==> r.value.totalCount == |ds| && r.value.totalAmount == TotalAmount(ds)
    ensures r.Success? && |ds| > 0 ==> r.value.averageAmount * (|ds| as real) == r.value.totalAmount
    ensures r.Success? && |ds| == 0 ==> r.value.totalAmount == 0.0 && r.value.averageAmount == 0.0
  {
    if !AmountsPresent(ds) then Failure(NullAmount)
    else
      var total := TotalAmount(ds);
      var count := |ds|;
      Success(Stats(total, count, if count > 0 then total / (count as real) else 0.0))
  }

  /** When every amount lies between `lo` and `hi`, the total lies between
      `lo` and `hi` times the number of donations. */
  lemma {:induction false} TotalBetween(ds: seq<Donation>, lo: real, hi: real)
    requires AmountsPresent(ds)
    requires forall i :: 0 <= i < |ds| ==> lo <= ds[i].amount.value <= hi
    ensures lo * (|ds| as real) <= TotalAmount(ds) <= hi * (|ds| as real)
  {
    if ds != [] {
      var init := ds[..|ds| - 1];
      assert AmountsPresent(init) by {
        forall i | 0 <= i < |init| ensures init[i].amount.Some? { assert init[i] == ds[i]; }
      }
      forall i | 0 <= i < |init| ensures lo <= init[i].amount.value <= hi { assert init[i] == ds[i]; }
      TotalBetween(init, lo, hi);
      var n := |init| as real;
      var x := ds[|ds| - 1].amount.value;
      assert TotalAmount(ds) == TotalAmount(init) + x;
      assert (|ds| as real) == n + 1.0;
      assert lo * (n + 1.0) == lo * n + lo;
      assert hi * (n + 1.0) == hi * n + hi;
    }
  }

  /** The average lies between the smallest and the largest amount. */
  lemma AverageBetween(ds: seq<Donation>, lo: real, hi: real)
    requires |ds| > 0 && AmountsPresent(ds)
    requires forall i :: 0 <= i < |ds| ==> lo <= ds[i].amount.value <= hi
    ensures GetDonationStats(ds).Success?
    ensures lo <= GetDonationStats(ds).value.averageAmount <= hi
  {
    TotalBetween(ds, lo, hi);
    var s := GetDonationStats(ds).value;
    var n := |ds| as real;
    assert s.averageAmount * n == s.totalAmount;
    assert (s.averageAmount - lo) * n >= 0.0;
    assert (hi - s.averageAmount) * n >= 0.0;
  }

  /** A successful donation adds one to the count and its amount to the total. */
  lemma DonateUpdatesStats(st: Store, u: int, c: int, a: real, notes: Option<string>, now: int)
    requires AmountsPresent(st.donations)
    requires Donate(st, Some(u), Some(c), Some(a), notes, now).1.Donated?
    ensures var s := GetDonationStats(Donate(st, Some(u), Some(c), Some(a), notes, now).0.donations);
      && s.Success?
      && s.value.totalCount == |st.donations| + 1
      && s.value.totalAmount == TotalAmount(st.donations) + a
  {
    var ds := Donate(st, Some(u), Some(c), Some(a), notes, now).0.donations;
    assert ds[..|ds| - 1] == st.donations;
  }

  /** A worked case: amounts 10, 20 and 30 total 60 over 3, an average of 20. */
  lemma StatsScenario(d: Donation)
    ensures var ds := [d.(amount := Some(10.0)), d.(amount := Some(20.0)), d.(amount := Some(30.0))];
      GetDonationStats(ds) == Success(Stats(60.0, 3, 20.0))
    ensures GetDonationStats([d.(amount := None)]) == Failure(NullAmount)
  {
    var ds := [d.(amount := Some(10.0)), d.(amount := Some(20.0)), d.(amount := Some(30.0))];
    assert ds[..2][..1] == [ds[0]];
    assert ds[..2] == [ds[0], ds[1]];
    assert AmountsPresent(ds);
    assert TotalAmount(ds[..1]) == 10.0;
    assert TotalAmount(ds[..2]) == 30.0;
    assert TotalAmount(ds) == 60.0;
  }

  /** `processDonation`: every exception is caught and returned as a rejection. */
  method ProcessDonation(db: Db, userId: Option<int>, campaignId: Option<int>, amount: Option<real>, notes: Option<string>, now: int)
    returns (response: DonationResponse)
    modifies db
    ensures (db.State(), response) == Donate(old(db.State()), userId, campaignId, amount, notes, now)
  {
    if userId.None? || campaignId.None? || amount.None? {
      return Rejected(MissingDonationArguments);
    }
    var u, c, a := userId.value, campaignId.value, amount.value;
    if a <= 0.0 {
      return Rejected(NonPositiveDonation);
    }
    var sufficient := HasSufficientBalance(db.State(), u, a);
    if sufficient.Failure? {
      return Rejected(sufficient.error);
    }
    if !sufficient.value {
      var currentBalance := GetWalletBalance(db.State(), u);
      return Rejected(InsufficientForDonation(currentBalance.value, a));
    }
    if u !in db.users {
      return Rejected(UserNotFound(u));
    }
    if c !in db.campaigns {
      return Rejected(CampaignNotFound(c));
    }
    var campaign := db.campaigns[c];
    var tx := WalletTransactionService.ProcessDonation(db, u, a, Some(LedgerNote(campaign.name)), now);
    assert tx.Success?;
    var donation := Record(a, now, notes, u, c);
    db.donations := db.donations + [donation];
    var newBalance := GetWalletBalance(db.State(), u);
    response := Donated(donation, newBalance.value);
  }
}
