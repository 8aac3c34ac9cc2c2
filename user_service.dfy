/** The wallet balance kept on each user: credit, guarded debit and queries. */
module UserService {
  import opened Base
  import opened Entities
  import opened Repositories

  /** The balance the service reads for a stored user: a null column counts as 0. */
  function CurrentBalance(u: User): real {
    u.walletBalance.GetOr(0.0)
  }

  /** The balance of `id`, or 0 for an unknown id (used to state invariants). */
  function BalanceOf(users: map<int, User>, id: int): real {
    if id in users then CurrentBalance(users[id]) else 0.0
  }

  /** `st2` differs from `st` only in the stored balance of user `id`. */
  ghost predicate OnlyBalanceChanged(st: Store, st2: Store, id: int) {
    && id in st.users
    && st2 == st.(users := st2.users)
    && st2.users.Keys == st.users.Keys
    && (forall v :: v in st.users && v != id ==> st2.users[v] == st.users[v])
    && st2.users[id] == st.users[id].(walletBalance := st2.users[id].walletBalance)
    && st2.users[id].walletBalance.Some?
  }

  /** The effect of `addToWalletBalance` on the store. */
  function Credit(st: Store, id: int, amount: real): (r: Result<Store, Error>)
    ensures r.Failure? <==> id !in st.users
    ensures r.Failure? ==> r.error == UserNotFound(id)
    ensures r.Success? ==> OnlyBalanceChanged(st, r.value, id)
    ensures r.Success? ==> BalanceOf(r.value.users, id) == BalanceOf(st.users, id) + amount
  {
    if id in st.users then
      var u := st.users[id];
      Success(st.(users := st.users[id := u.(walletBalance := Some(CurrentBalance(u) + amount))]))
    else Failure(UserNotFound(id))
  }

  /** The effect of `deductFromWalletBalance` on the store: the debit happens
      only when the current balance covers the amount. */
  function Debit(st: Store, id: int, amount: real): (r: Result<Store, Error>)
    ensures id !in st.users ==> r == Failure(UserNotFound(id))
    ensures (id in st.users && BalanceOf(st.users, id) < amount) ==>
              r == Failure(InsufficientWalletBalance(BalanceOf(st.users, id)))
    ensures r.Success? <==> id in st.users && amount <= BalanceOf(st.users, id)
    ensures r.Success? ==> OnlyBalanceChanged(st, r.value, id)
    ensures r.Success? ==> BalanceOf(r.value.users, id) == BalanceOf(st.users, id) - amount
    ensures r.Success? ==> BalanceOf(r.value.users, id) >= 0.0
  {
    if id in st.users then
      var u := st.users[id];
      var current := CurrentBalance(u);
      if current < amount then Failure(InsufficientWalletBalance(current))
      else Success(st.(users := st.users[id := u.(walletBalance := Some(current - amount))]))
    else Failure(UserNotFound(id))
  }

  /** `getWalletBalance`. */
  function GetWalletBalance(st: Store, id: int): (r: Result<real, Error>)
    ensures r.Failure? <==> id !in st.users
    ensures r.Failure? ==> r.error == UserNotFound(id)
    ensures r.Success? && st.users[id].walletBalance.None? ==> r.value == 0.0
    ensures r.Success? && st.users[id].walletBalance.Some? ==> r.value == st.users[id].walletBalance.value
  {
    if id in st.users then Success(CurrentBalance(st.users[id])) else Failure(UserNotFound(id))
  }

  /** `hasSufficientBalance`: propagates "User not found", otherwise compares. */
  function HasSufficientBalance(st: Store, id: int, required: real): (r: Result<bool, Error>)
    ensures r.Failure? <==> id !in st.users
    ensures r.Failure? ==> r.error == UserNotFound(id)
    ensures r.Success? ==> (r.value <==> GetWalletBalance(st, id).value >= required)
  {
    match GetWalletBalance(st, id)
    case Failure(e) => Failure(e)
    case Success(current) => Success(current >= required)
  }

  /** The sufficiency check and the debit's own guard agree: the check says
      yes exactly when the debit would go through. */
  lemma SufficientIffDebitSucceeds(st: Store, id: int, amount: real)
    ensures HasSufficientBalance(st, id, amount) == Success(true) <==> Debit(st, id, amount).Success?
  {
  }

  /** Crediting and then debiting the same amount restores the user's balance,
      and leaves every other user as it was. The debit's guard only lets it
      through when the starting balance was not negative. */
  lemma CreditThenDebitRestores(st: Store, id: int, amount: real)
    requires id in st.users && BalanceOf(st.users, id) >= 0.0
    ensures Credit(st, id, amount).Success?
    ensures Debit(Credit(st, id, amount).value, id, amount).Success?
    ensures var st2 := Debit(Credit(st, id, amount).value, id, amount).value;
      && BalanceOf(st2.users, id) == BalanceOf(st.users, id)
      && GetWalletBalance(st2, id) == GetWalletBalance(st, id)
      && (forall v :: v != id ==> BalanceOf(st2.users, v) == BalanceOf(st.users, v))
      && st2 == st.(users := st2.users)
  {
    var st1 := Credit(st, id, amount).value;
    assert BalanceOf(st1.users, id) == BalanceOf(st.users, id) + amount;
  }

  /** Neither operation checks the sign of `amount`: a negative credit can
      drive a balance below zero, so positivity is up to the caller. */
  lemma NegativeCreditGoesBelowZero(st: Store, id: int)
    requires id in st.users && st.users[id].walletBalance == Some(0.0)
    ensures Credit(st, id, -1.0).Success?
    ensures BalanceOf(Credit(st, id, -1.0).value.users, id) < 0.0
  {
  }

  /** Debiting exactly the whole balance leaves zero. */
  lemma DebitWholeBalance(st: Store, id: int)
    requires id in st.users
    ensures Debit(st, id, BalanceOf(st.users, id)).Success?
    ensures BalanceOf(Debit(st, id, BalanceOf(st.users, id)).value.users, id) == 0.0
  {
  }

  /** No balance is negative: the invariant every debit and every
      non-negative credit preserves. */
  ghost predicate NonNegativeBalances(st: Store) {
    forall v :: v in st.users ==> CurrentBalance(st.users[v]) >= 0.0
  }

  lemma DebitPreservesNonNegative(st: Store, id: int, amount: real)
    requires NonNegativeBalances(st) && Debit(st, id, amount).Success?
    ensures NonNegativeBalances(Debit(st, id, amount).value)
  {
    var st2 := Debit(st, id, amount).value;
    forall v | v in st2.users ensures CurrentBalance(st2.users[v]) >= 0.0 {
      if v != id {
        assert st2.users[v] == st.users[v];
      } else {
        assert CurrentBalance(st2.users[v]) == BalanceOf(st2.users, id);
      }
    }
  }

  lemma CreditPreservesNonNegative(st: Store, id: int, amount: real)
    requires NonNegativeBalances(st) && amount >= 0.0 && Credit(st, id, amount).Success?
    ensures NonNegativeBalances(Credit(st, id, amount).value)
  {
    var st2 := Credit(st, id, amount).value;
    forall v | v in st2.users ensures CurrentBalance(st2.users[v]) >= 0.0 {
      if v != id {
        assert st2.users[v] == st.users[v];
      } else {
        assert CurrentBalance(st2.users[v]) == BalanceOf(st2.users, id);
        assert BalanceOf(st.users, id) >= 0.0;
      }
    }
  }

  /** `addToWalletBalance`: read the stored user, add, save. */
  method AddToWalletBalance(db: Db, id: int, amount: real) returns (r: Result<User, Error>)
    modifies db
    ensures Credit(old(db.State()), id, amount) == (if r.Success? then Success(db.State()) else Failure(r.error))
    ensures r.Success? ==> id in db.users && r.value == db.users[id]
    ensures r.Failure? ==> db.State() == old(db.State())
  {
    if id in db.users {
      var user := db.users[id];
      var currentBalance := CurrentBalance(user);
      user := user.(walletBalance := Some(currentBalance + amount));
      db.users := db.users[id := user];
      r := Success(user);
    } else {
      r := Failure(UserNotFound(id));
    }
  }

  /** `deductFromWalletBalance`: read the stored user, check, subtract, save. */
  method DeductFromWalletBalance(db: Db, id: int, amount: real) returns (r: Result<User, Error>)
    modifies db
    ensures Debit(old(db.State()), id, amount) == (if r.Success? then Success(db.State()) else Failure(r.error))
    ensures r.Success? ==> id in db.users && r.value == db.users[id]
    ensures r.Failure? ==> db.State() == old(db.State())
  {
    if id in db.users {
      var user := db.users[id];
      var currentBalance := CurrentBalance(user);
      if currentBalance < amount {
        return Failure(InsufficientWalletBalance(currentBalance));
      }
      user := user.(walletBalance := Some(currentBalance - amount));
      db.users := db.users[id := user];
      r := Success(user);
    } else {
      r := Failure(UserNotFound(id));
    }
  }
}
