/** The wallet ledger: every balance change is paired with one appended entry. */
module WalletTransactionService {
  import opened Base
  import opened Entities
  import opened Repositories
  import opened UserService

  const TopUpType := "top-up"
  const DonationType := "donation"
  const DefaultTopUpNote := "Wallet top-up"
  const DefaultDonationNote := "Donation deduction"

  /** The ledger entry written after a balance change; a null note takes the default. */
  function Entry(kind: string, userId: int, amount: real, notes: Option<string>, default: string, now: int): (t: WalletTransaction)
    ensures t.userId == Some(userId) && t.amount == amount && t.transactionType == kind && t.date == now
    ensures notes.Some? ==> t.notes == notes.value
    ensures notes.None? ==> t.notes == default
  {
    WalletTransaction(amount, kind, now, notes.GetOr(default), Some(userId))
  }

  /** The effect of `processTopUp`: credit first, then append one "top-up" entry. */
  function TopUp(st: Store, userId: int, amount: real, notes: Option<string>, now: int): (r: Result<Store, Error>)
    ensures r.Failure? <==> userId !in st.users
    ensures r.Failure? ==> r.error == UserNotFound(userId)
    ensures r.Success? ==>
      && r.value.users == Credit(st, userId, amount).value.users
      && r.value.transactions == st.transactions + [Entry(TopUpType, userId, amount, notes, DefaultTopUpNote, now)]
      && r.value == st.(users := r.value.users, transactions := r.value.transactions)
  {
    match Credit(st, userId, amount)
    case Failure(e) => Failure(e)
    case Success(s) =>
      Success(s.(transactions := s.transactions + [Entry(TopUpType, userId, amount, notes, DefaultTopUpNote, now)]))
  }

  /** The effect of `processDonation` on the wallet: debit first, then append
      one "donation" entry. A debit that throws appends nothing. */
  function DonationDeduction(st: Store, userId: int, amount: real, notes: Option<string>, now: int): (r: Result<Store, Error>)
    ensures r.Failure? <==> Debit(st, userId, amount).Failure?
    ensures r.Failure? ==> r.error == Debit(st, userId, amount).error
    ensures r.Success? ==>
      && r.value.users == Debit(st, userId, amount).value.users
      && r.value.transactions == st.transactions + [Entry(DonationType, userId, amount, notes, DefaultDonationNote, now)]
      && r.value == st.(users := r.value.users, transactions := r.value.transactions)
  {
    match Debit(st, userId, amount)
    case Failure(e) => Failure(e)
    case Success(s) =>
      Success(s.(transactions := s.transactions + [Entry(DonationType, userId, amount, notes, DefaultDonationNote, now)]))
  }

  predicate BelongsTo(t: WalletTransaction, userId: int) {
    t.userId == Some(userId)
  }

  /** `getTransactionsByUserId`: the entries linked to that user, in store order. */
  function GetTransactionsByUserId(txs: seq<WalletTransaction>, userId: int): (r: seq<WalletTransaction>)
    ensures forall t :: t in r <==> t in txs && t.userId == Some(userId)
  {
    Filter(txs, t => BelongsTo(t, userId))
  }

  /** Appending one entry extends exactly the history of the user it belongs to. */
  lemma HistoryAppend(txs: seq<WalletTransaction>, e: WalletTransaction, userId: int)
    ensures GetTransactionsByUserId(txs + [e], userId)
            == GetTransactionsByUserId(txs, userId) + (if BelongsTo(e, userId) then [e] else [])
  {
    var p := t => BelongsTo(t, userId);
    FilterAppend(txs, [e], p);
    assert Filter([e], p) == (if p(e) then [e] else []) + Filter([], p);
  }

  /** A top-up shows up at the end of that user's history and nowhere else. */
  lemma TopUpExtendsHistory(st: Store, userId: int, amount: real, notes: Option<string>, now: int, other: int)
    requires TopUp(st, userId, amount, notes, now).Success?
    ensures var txs := TopUp(st, userId, amount, notes, now).value.transactions;
      && GetTransactionsByUserId(txs, userId)
         == GetTransactionsByUserId(st.transactions, userId) + [Entry(TopUpType, userId, amount, notes, DefaultTopUpNote, now)]
      && (other != userId ==> GetTransactionsByUserId(txs, other) == GetTransactionsByUserId(st.transactions, other))
  {
    var e := Entry(TopUpType, userId, amount, notes, DefaultTopUpNote, now);
    var txs := TopUp(st, userId, amount, notes, now).value.transactions;
    assert txs == st.transactions + [e];
    HistoryAppend(st.transactions, e, userId);
    if other != userId {
      HistoryAppend(st.transactions, e, other);
      assert !BelongsTo(e, other);
    }
  }

  /** What one ledger entry says about `userId`'s balance: a top-up adds its
      amount, a donation removes it, and any other entry says nothing. */
  function Contribution(t: WalletTransaction, userId: int): real {
    if t.userId != Some(userId) then 0.0
    else if t.transactionType == TopUpType then t.amount
    else if t.transactionType == DonationType then -t.amount
    else 0.0
  }

  /** The user's top-up amounts minus their donation amounts in the ledger. */
  function Net(txs: seq<WalletTransaction>, userId: int): real {
    if txs == [] then 0.0 else Net(txs[..|txs| - 1], userId) + Contribution(txs[|txs| - 1], userId)
  }

  lemma {:induction false} NetAppend(a: seq<WalletTransaction>, b: seq<WalletTransaction>, userId: int)
    ensures Net(a + b, userId) == Net(a, userId) + Net(b, userId)
    decreases |b|
  {
    if b == [] {
      assert a + b == a;
    } else {
      var b0 := b[..|b| - 1];
      assert (a + b)[..|a + b| - 1] == a + b0;
      NetAppend(a, b0, userId);
    }
  }

  /** `st2` follows from `st` by balance changes that the new ledger entries
      account for exactly, user by user. */
  ghost predicate LedgerAccounts(st: Store, st2: Store) {
    forall u :: BalanceOf(st2.users, u) - BalanceOf(st.users, u) == Net(st2.transactions, u) - Net(st.transactions, u)
  }

  lemma TopUpAccounted(st: Store, userId: int, amount: real, notes: Option<string>, now: int)
    requires TopUp(st, userId, amount, notes, now).Success?
    ensures LedgerAccounts(st, TopUp(st, userId, amount, notes, now).value)
  {
    var st2 := TopUp(st, userId, amount, notes, now).value;
    forall u ensures BalanceOf(st2.users, u) - BalanceOf(st.users, u) == Net(st2.transactions, u) - Net(st.transactions, u) {
      assert Net(st2.transactions, u) == Net(st.transactions, u) + Contribution(st2.transactions[|st2.transactions| - 1], u);
      if u != userId {
        assert u in st2.users <==> u in st.users;
      }
    }
  }

  lemma DonationAccounted(st: Store, userId: int, amount: real, notes: Option<string>, now: int)
    requires DonationDeduction(st, userId, amount, notes, now).Success?
    ensures LedgerAccounts(st, DonationDeduction(st, userId, amount, notes, now).value)
  {
    var st2 := DonationDeduction(st, userId, amount, notes, now).value;
    forall u ensures BalanceOf(st2.users, u) - BalanceOf(st.users, u) == Net(st2.transactions, u) - Net(st.transactions, u) {
      assert Net(st2.transactions, u) == Net(st.transactions, u) + Contribution(st2.transactions[|st2.transactions| - 1], u);
      if u != userId {
        assert u in st2.users <==> u in st.users;
      }
    }
  }

  /** One call of either service operation; a call that throws changes nothing. */
  datatype WalletOp =
    | TopUpOp(userId: int, amount: real, notes: Option<string>, now: int)
    | DonationOp(userId: int, amount: real, notes: Option<string>, now: int)

  function Apply(st: Store, op: WalletOp): Store {
    var r := match op
      case TopUpOp(u, a, n, t) => TopUp(st, u, a, n, t)
      case DonationOp(u, a, n, t) => DonationDeduction(st, u, a, n, t);
    if r.Success? then r.value else st
  }

  function Run(st: Store, ops: seq<WalletOp>): Store
    decreases |ops|
  {
    if ops == [] then st else Run(Apply(st, ops[0]), ops[1..])
  }

  lemma ApplyAccounted(st: Store, op: WalletOp)
    ensures LedgerAccounts(st, Apply(st, op))
  {
    match op
    case TopUpOp(u, a, n, t) =>
      if TopUp(st, u, a, n, t).Success? { TopUpAccounted(st, u, a, n, t); }
    case DonationOp(u, a, n, t) =>
      if DonationDeduction(st, u, a, n, t).Success? { DonationAccounted(st, u, a, n, t); }
  }

  /** Over any sequence of top-ups and donation deductions, each user's balance
      moves by exactly their top-ups minus their donations in the new entries. */
  lemma {:induction false} RunAccounted(st: Store, ops: seq<WalletOp>)
    ensures LedgerAccounts(st, Run(st, ops))
    decreases |ops|
  {
    if ops != [] {
      var st1 := Apply(st, ops[0]);
      ApplyAccounted(st, ops[0]);
      RunAccounted(st1, ops[1..]);
    }
  }

  /** The controller only forwards top-ups of a positive amount. */
  predicate PositiveTopUps(ops: seq<WalletOp>) {
    forall i :: 0 <= i < |ops| && ops[i].TopUpOp? ==> ops[i].amount > 0.0
  }

  /** With positive top-ups, no sequence of operations makes a balance negative. */
  lemma ApplyKeepsNonNegative(st: Store, op: WalletOp)
    requires NonNegativeBalances(st) && (op.TopUpOp? ==> op.amount > 0.0)
    ensures NonNegativeBalances(Apply(st, op))
  {
    match op
    case TopUpOp(u, a, n, t) =>
      if TopUp(st, u, a, n, t).Success? {
        CreditPreservesNonNegative(st, u, a);
        assert Apply(st, op).users == Credit(st, u, a).value.users;
      }
    case DonationOp(u, a, n, t) =>
      if DonationDeduction(st, u, a, n, t).Success? {
        DebitPreservesNonNegative(st, u, a);
        assert Apply(st, op).users == Debit(st, u, a).value.users;
      }
  }

  lemma {:induction false} RunKeepsNonNegative(st: Store, ops: seq<WalletOp>)
    requires NonNegativeBalances(st) && PositiveTopUps(ops)
    ensures NonNegativeBalances(Run(st, ops))
    decreases |ops|
  {
    if ops != [] {
      ApplyKeepsNonNegative(st, ops[0]);
      assert PositiveTopUps(ops[1..]) by {
        forall i | 0 <= i < |ops| - 1 && ops[1..][i].TopUpOp? ensures ops[1..][i].amount > 0.0 {
          assert ops[1..][i] == ops[i + 1];
        }
      }
      RunKeepsNonNegative(Apply(st, ops[0]), ops[1..]);
    }
  }

  /** A top-up followed by a donation deduction of the same amount leaves the
      balance where it started and records both entries. */
  lemma TopUpThenDeductRoundTrip(st: Store, userId: int, amount: real, n1: Option<string>, n2: Option<string>, t1: int, t2: int)
    requires userId in st.users && BalanceOf(st.users, userId) >= 0.0
    ensures TopUp(st, userId, amount, n1, t1).Success?
    ensures var st1 := TopUp(st, userId, amount, n1, t1).value;
      && DonationDeduction(st1, userId, amount, n2, t2).Success?
      && var st2 := DonationDeduction(st1, userId, amount, n2, t2).value;
      && BalanceOf(st2.users, userId) == BalanceOf(st.users, userId)
      && |st2.transactions| == |st.transactions| + 2
      && Net(st2.transactions, userId) == Net(st.transactions, userId)
  {
    var st1 := TopUp(st, userId, amount, n1, t1).value;
    CreditThenDebitRestores(st, userId, amount);
    TopUpAccounted(st, userId, amount, n1, t1);
    DonationAccounted(st1, userId, amount, n2, t2);
  }

  /** `processTopUp`. */
  method ProcessTopUp(db: Db, userId: int, amount: real, notes: Option<string>, now: int) returns (r: Result<WalletTransaction, Error>)
    modifies db
    ensures TopUp(old(db.State()), userId, amount, notes, now) == (if r.Success? then Success(db.State()) else Failure(r.error))
    ensures r.Success? ==> r.value == db.transactions[|db.transactions| - 1]
    ensures r.Failure? ==> db.State() == old(db.State())
  {
    var updated := AddToWalletBalance(db, userId, amount);
    if updated.Failure? {
      return Failure(updated.error);
    }
    var transaction := WalletTransaction(amount, TopUpType, now, if notes.Some? then notes.value else DefaultTopUpNote, Some(userId));
    db.transactions := db.transactions + [transaction];
    r := Success(transaction);
  }

  /** `processDonation`. */
  method ProcessDonation(db: Db, userId: int, amount: real, notes: Option<string>, now: int) returns (r: Result<WalletTransaction, Error>)
    modifies db
    ensures DonationDeduction(old(db.State()), userId, amount, notes, now) == (if r.Success? then Success(db.State()) else Failure(r.error))
    ensures r.Success? ==> r.value == db.transactions[|db.transactions| - 1]
    ensures r.Failure? ==> db.State() == old(db.State())
  {
    var updated := DeductFromWalletBalance(db, userId, amount);
    if updated.Failure? {
      return Failure(updated.error);
    }
    var transaction := WalletTransaction(amount, DonationType, now, if notes.Some? then notes.value else DefaultDonationNote, Some(userId));
    db.transactions := db.transactions + [transaction];
    r := Success(transaction);
  }
}
