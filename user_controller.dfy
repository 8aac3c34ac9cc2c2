/** The store-level rules of the user endpoints: registration, login, update
    and delete. A JSON request body is a map from keys to strings; a missing
    key reads as `null`. */
module UserController {
  import opened Base
  import opened Entities
  import opened Repositories
  import opened Text
  import opened UserService
  import WalletTransactionService
  import OrganizationService

  type Body = map<string, string>

  /** `requestData.get(key)`. */
  function Get(body: Body, key: string): (r: Option<string>)
    ensures r.Some? <==> key in body
    ensures r.Some? ==> r.value == body[key]
  {
    if key in body then Some(body[key]) else None
  }

  const OrganizationRole := "ORGANIZATION"
  const PendingStatus := "pending"

  /** The user `registerUser` builds: the names come from the snake_case keys,
      the contact number from `contactNumber`, and the wallet starts at 0. */
  function UserFromBody(body: Body, id: int): (u: User)
    ensures u.id == id && u.walletBalance == Some(0.0)
    ensures u.firstName == Get(body, "first_name") && u.lastName == Get(body, "last_name")
    ensures u.email == Get(body, "email") && u.contactNumber == Get(body, "contactNumber")
    ensures u.password == Get(body, "password") && u.role == Get(body, "role")
  {
    User(id, Get(body, "first_name"), Get(body, "last_name"), Get(body, "email"),
         Get(body, "contactNumber"), Get(body, "password"), Get(body, "role"), Some(0.0))
  }

  /** The organization registered next to an "ORGANIZATION" user: pending
      approval and linked to that user. */
  function OrganizationFromBody(body: Body, id: int, userId: int): (o: Organization)
    ensures o.id == id && o.userId == Some(userId) && o.approvalStatus == Some(PendingStatus)
    ensures o.name == Get(body, "organization_name") && o.description == Get(body, "organization_description")
    ensures o.address == Get(body, "organization_address")
    ensures o.contactDetails.None? && o.eligibilityProof.None?
  {
    Organization(id, Get(body, "organization_name"), Get(body, "organization_description"),
                 Get(body, "organization_address"), None, None, Some(PendingStatus), Some(userId))
  }

  /** The effect of `registerUser`: one new user under a fresh id, and one new
      organization exactly when the role is "ORGANIZATION" (case matters). */
  function Register(st: Store, body: Body): (r: Store)
    ensures r.users == st.users[st.nextUserId := UserFromBody(body, st.nextUserId)]
    ensures r.nextUserId == st.nextUserId + 1
    ensures Get(body, "role") == Some(OrganizationRole) ==>
      && r.organizations == st.organizations[st.nextOrganizationId := OrganizationFromBody(body, st.nextOrganizationId, st.nextUserId)]
      && r.nextOrganizationId == st.nextOrganizationId + 1
    ensures Get(body, "role") != Some(OrganizationRole) ==>
      r.organizations == st.organizations && r.nextOrganizationId == st.nextOrganizationId
    ensures r.campaigns == st.campaigns && r.donations == st.donations && r.transactions == st.transactions
  {
    var uid := st.nextUserId;
    var st1 := st.(users := st.users[uid := UserFromBody(body, uid)], nextUserId := uid + 1);
    if Get(body, "role") == Some(OrganizationRole) then
      var oid := st1.nextOrganizationId;
      st1.(organizations := st1.organizations[oid := OrganizationFromBody(body, oid, uid)], nextOrganizationId := oid + 1)
    else st1
  }

  /** Registration adds rows under fresh ids, so no existing user or
      organization is overwritten, and the new wallet holds nothing. */
  lemma RegisterFresh(st: Store, body: Body)
    requires WellKeyed(st)
    ensures WellKeyed(Register(st, body))
    ensures st.nextUserId !in st.users
    ensures forall k :: k in st.users ==> Register(st, body).users[k] == st.users[k]
    ensures forall k :: k in st.organizations ==> Register(st, body).organizations[k] == st.organizations[k]
    ensures BalanceOf(Register(st, body).users, st.nextUserId) == 0.0
  {
  }

  /** Registration keeps every balance non-negative and the ledger in step. */
  lemma RegisterKeepsWallets(st: Store, body: Body)
    requires WellKeyed(st) && NonNegativeBalances(st)
    ensures NonNegativeBalances(Register(st, body))
    ensures WalletTransactionService.LedgerAccounts(st, Register(st, body))
  {
    var r := Register(st, body);
    assert forall u :: BalanceOf(r.users, u) == BalanceOf(st.users, u) by {
      forall u ensures BalanceOf(r.users, u) == BalanceOf(st.users, u) {
        if u == st.nextUserId {
          assert u !in st.users;
        }
      }
    }
  }

  method RegisterUser(db: Db, body: Body)
    modifies db
    ensures db.State() == Register(old(db.State()), body)
  {
    var uid := db.nextUserId;
    var user := UserFromBody(body, uid);
    db.users := db.users[uid := user];
    db.nextUserId := uid + 1;
    if Get(body, "role") == Some(OrganizationRole) {
      var oid := db.nextOrganizationId;
      var organization := OrganizationFromBody(body, oid, uid);
      db.organizations := db.organizations[oid := organization];
      db.nextOrganizationId := oid + 1;
    }
  }

  /** The login view of a user, with the organization when there is one. */
  datatype UserLoginDTO = UserLoginDTO(
    userId: int,
    firstName: Option<string>,
    lastName: Option<string>,
    email: Option<string>,
    contactNumber: Option<string>,
    role: Option<string>,
    walletBalance: Option<real>,
    organizationId: Option<int>,
    organizationName: Option<string>)

  datatype LoginResponse = LoggedIn(dto: UserLoginDTO) | Unauthorized

  /** `"organization".equalsIgnoreCase(role)` on ASCII letters. */
  predicate IsOrganizationRole(role: Option<string>) {
    role.Some? && Lower(role.value) == "organization"
  }

  /** The finder for `email` matches user `k` (a null email matches a null column). */
  predicate HasEmail(users: map<int, User>, email: Option<string>, k: int) {
    k in users && users[k].email == email
  }

  ghost predicate EmailAtMostOnce(users: map<int, User>, email: Option<string>) {
    forall k1, k2 :: HasEmail(users, email, k1) && HasEmail(users, email, k2) ==> k1 == k2
  }

  /** The credentials match user `k`: the e-mail finds it and its stored
      password equals the supplied one. */
  predicate Authenticates(users: map<int, User>, email: Option<string>, password: Option<string>, k: int) {
    HasEmail(users, email, k) && users[k].password.Some? && password == users[k].password
  }

  /** The login succeeds for user `k`: the credentials match, no other user
      has that e-mail, and an organization user has at most one organization. */
  ghost predicate LogsIn(st: Store, email: Option<string>, password: Option<string>, k: int) {
    && Authenticates(st.users, email, password, k)
    && EmailAtMostOnce(st.users, email)
    && (IsOrganizationRole(st.users[k].role) ==> OrganizationService.LinkedAtMostOnce(st.organizations, k))
  }

  /** `loginUser`. A missing user, a wrong or null password, or a finder that
      sees more than one row all answer 401 (the thrown exceptions go through
      the controller's handler). */
  method LoginUser(st: Store, email: Option<string>, password: Option<string>) returns (r: LoginResponse)
    ensures r.LoggedIn? <==> exists k :: LogsIn(st, email, password, k)
    ensures r.LoggedIn? ==> LogsIn(st, email, password, r.dto.userId)
    ensures r.LoggedIn? ==>
      var u := st.users[r.dto.userId];
      && r.dto.firstName == u.firstName && r.dto.lastName == u.lastName && r.dto.email == u.email
      && r.dto.contactNumber == u.contactNumber && r.dto.role == u.role && r.dto.walletBalance == u.walletBalance
      && (r.dto.organizationId.Some? <==>
            IsOrganizationRole(u.role) && exists j :: OrganizationService.Linked(st.organizations, r.dto.userId, j))
      && (r.dto.organizationId.Some? ==> exists j ::
            && OrganizationService.Linked(st.organizations, r.dto.userId, j)
            && r.dto.organizationId == Some(st.organizations[j].id)
            && r.dto.organizationName == st.organizations[j].name)
      && (r.dto.organizationId.None? ==> r.dto.organizationName.None?)
  {
    if !(exists k :: k in st.users && HasEmail(st.users, email, k)) {
      return Unauthorized;
    }
    var k :| k in st.users && HasEmail(st.users, email, k);
    if exists k2 :: k2 in st.users && HasEmail(st.users, email, k2) && k2 != k {
      assert !EmailAtMostOnce(st.users, email);
      return Unauthorized;
    }
    assert EmailAtMostOnce(st.users, email);
    var user := st.users[k];
    if user.password.None? || user.password != password {
      assert forall k' :: Authenticates(st.users, email, password, k') ==> k' == k;
      return Unauthorized;
    }
    assert LogsIn(st, email, password, k) <==> exists k' :: LogsIn(st, email, password, k');
    var dto := UserLoginDTO(k, user.firstName, user.lastName, user.email, user.contactNumber,
                            user.role, user.walletBalance, None, None);
    if IsOrganizationRole(user.role) {
      var org := OrganizationService.GetOrganizationByUserId(st.organizations, k);
      if org.Failure? && org.error == NonUniqueResult {
        return Unauthorized;
      }
      if org.Success? {
        ghost var j :| OrganizationService.Linked(st.organizations, k, j) && org.value == st.organizations[j];
        dto := dto.(organizationId := Some(org.value.id), organizationName := org.value.name);
      }
    }
    r := LoggedIn(dto);
  }

  /** The five profile fields `updateUser` copies; the password and the
      wallet balance stay as stored. */
  function UpdatedUser(u: User, details: User): (r: User)
    ensures r.firstName == details.firstName && r.lastName == details.lastName && r.email == details.email
    ensures r.contactNumber == details.contactNumber && r.role == details.role
    ensures r.id == u.id && r.password == u.password && r.walletBalance == u.walletBalance
  {
    u.(firstName := details.firstName, lastName := details.lastName, email := details.email,
       contactNumber := details.contactNumber, role := details.role)
  }

  /** The effect of `updateUser`; an unknown id throws, which the handler turns into 401. */
  function UpdateUser(st: Store, id: int, details: User): (r: Result<Store, Error>)
    ensures r.Failure? <==> id !in st.users
    ensures r.Failure? ==> r.error == UserNotFound(id)
    ensures r.Success? ==> r.value == st.(users := st.users[id := UpdatedUser(st.users[id], details)])
  {
    if id in st.users then Success(st.(users := st.users[id := UpdatedUser(st.users[id], details)]))
    else Failure(UserNotFound(id))
  }

  /** A profile update never moves money: every balance, and so the ledger
      invariant and non-negativity, stays as it was; a second identical update
      changes nothing further. */
  lemma UpdateUserKeepsWallets(st: Store, id: int, details: User)
    requires UpdateUser(st, id, details).Success?
    ensures forall v :: BalanceOf(UpdateUser(st, id, details).value.users, v) == BalanceOf(st.users, v)
    ensures WalletTransactionService.LedgerAccounts(st, UpdateUser(st, id, details).value)
    ensures NonNegativeBalances(st) ==> NonNegativeBalances(UpdateUser(st, id, details).value)
    ensures UpdateUser(UpdateUser(st, id, details).value, id, details) == UpdateUser(st, id, details)
  {
    var r := UpdateUser(st, id, details).value;
    assert forall v :: BalanceOf(r.users, v) == BalanceOf(st.users, v) by {
      forall v ensures BalanceOf(r.users, v) == BalanceOf(st.users, v) {
        if v == id {
          assert r.users[v].walletBalance == st.users[v].walletBalance;
        }
      }
    }
    assert UpdatedUser(r.users[id], details) == r.users[id];
    assert r.users[id := r.users[id]] == r.users;
  }

  method UpdateUserIn(db: Db, id: int, details: User) returns (r: Result<User, Error>)
    modifies db
    ensures UpdateUser(old(db.State()), id, details) == (if r.Success? then Success(db.State()) else Failure(r.error))
    ensures r.Success? ==> id in db.users && r.value == db.users[id]
  {
    if id !in db.users {
      return Failure(UserNotFound(id));
    }
    var user := db.users[id];
    user := user.(firstName := details.firstName);
    user := user.(lastName := details.lastName);
    user := user.(email := details.email);
    user := user.(contactNumber := details.contactNumber);
    user := user.(role := details.role);
    db.users := db.users[id := user];
    r := Success(user);
  }

  /** The answers of `deleteUser`: 200, 404 for an unknown id, and 401 when
      the database refuses the delete (the controller's `RuntimeException`
      handler answers every such failure with 401). */
  datatype DeleteResponse = Deleted | NotFound | Rejected

  /** The organizations removed with the user (`User.organization`, cascade
      ALL). */
  function OwnedOrganizations(st: Store, id: int): set<int> {
    set k | k in st.organizations && st.organizations[k].userId == Some(id)
  }

  /** The campaigns removed with those organizations
      (`Organization.campaigns`, cascade ALL). */
  function OwnedCampaigns(st: Store, id: int): set<int> {
    set k | k in st.campaigns && st.campaigns[k].organizationId.Some?
      && st.campaigns[k].organizationId.value in OwnedOrganizations(st, id)
  }

  /** A donation removed by the cascade: the user's own (`User.donations`),
      or any donation to a removed campaign (`Campaign.donations`), whoever
      made it. */
  predicate CascadedDonation(st: Store, id: int, d: Donation) {
    d.userId == Some(id) || (d.campaignId.Some? && d.campaignId.value in OwnedCampaigns(st, id))
  }

  /** The store once the user and everything cascading from it are gone. The
      ledger is untouched: `WalletTransaction.user` has no cascade. */
  function Cascade(st: Store, id: int): Store {
    st.(users := st.users - {id},
        organizations := st.organizations - OwnedOrganizations(st, id),
        campaigns := st.campaigns - OwnedCampaigns(st, id),
        donations := Filter(st.donations, d => !CascadedDonation(st, id, d)))
  }

  /** The effect of `deleteUser`: 404 and nothing removed for an unknown id;
      401 and nothing removed when a ledger entry still refers to the user,
      since the database rejects the delete of a referenced row; otherwise
      the user goes, with the cascade. */
  function DeleteUser(st: Store, id: int): (r: (Store, DeleteResponse))
    ensures r.1 == NotFound <==> id !in st.users
    ensures r.1 == Rejected <==> id in st.users && WalletTransactionService.GetTransactionsByUserId(st.transactions, id) != []
    ensures r.1 != Deleted ==> r.0 == st
    ensures r.1 == Deleted ==> r.0 == Cascade(st, id)
  {
    if id !in st.users then (st, NotFound)
    else if WalletTransactionService.GetTransactionsByUserId(st.transactions, id) != [] then (st, Rejected)
    else (Cascade(st, id), Deleted)
  }

  /** After a delete nothing refers to the user any more: the user, its
      organization, that organization's campaigns and every donation by the
      user or to those campaigns are gone, and the other users and the
      ledger are as before. */
  lemma DeletedLeavesNoReference(st: Store, id: int)
    requires DeleteUser(st, id).1 == Deleted
    ensures var after := DeleteUser(st, id).0;
      && after.users == st.users - {id}
      && after.transactions == st.transactions
      && (forall k :: k in after.organizations ==> after.organizations[k].userId != Some(id))
      && (forall k :: k in after.campaigns ==> k in st.campaigns && k !in OwnedCampaigns(st, id))
      && (forall d :: d in after.donations ==> d in st.donations && d.userId != Some(id))
      && (forall d :: d in st.donations && !CascadedDonation(st, id, d) ==> d in after.donations)
  {
    var after := DeleteUser(st, id).0;
    forall k | k in after.organizations ensures after.organizations[k].userId != Some(id) {
      assert k !in OwnedOrganizations(st, id);
    }
  }

  /** Deleting is final: a second delete of the same id answers 404. A user
      the ledger refers to is refused, every time. */
  lemma DeleteTwice(st: Store, id: int)
    requires id in st.users
    ensures WalletTransactionService.GetTransactionsByUserId(st.transactions, id) == [] ==>
      DeleteUser(st, id).1 == Deleted && DeleteUser(DeleteUser(st, id).0, id) == (DeleteUser(st, id).0, NotFound)
    ensures WalletTransactionService.GetTransactionsByUserId(st.transactions, id) != [] ==>
      DeleteUser(st, id) == (st, Rejected)
  {
  }

  /** A user who has topped up once can no longer be deleted. */
  lemma ToppedUpUserIsKept(st: Store, id: int, amount: real, notes: Option<string>, now: int)
    requires WalletTransactionService.TopUp(st, id, amount, notes, now).Success?
    ensures var after := WalletTransactionService.TopUp(st, id, amount, notes, now).value;
      DeleteUser(after, id) == (after, Rejected)
  {
    var after := WalletTransactionService.TopUp(st, id, amount, notes, now).value;
    var e := after.transactions[|after.transactions| - 1];
    assert e in after.transactions && e.userId == Some(id);
    assert e in WalletTransactionService.GetTransactionsByUserId(after.transactions, id);
  }

  method DeleteUserIn(db: Db, id: int) returns (response: DeleteResponse)
    modifies db
    ensures (db.State(), response) == DeleteUser(old(db.State()), id)
  {
    var st := db.State();
    if id !in db.users {
      response := NotFound;
    } else if WalletTransactionService.GetTransactionsByUserId(db.transactions, id) != [] {
      response := Rejected;
    } else {
      db.users := db.users - {id};
      db.organizations := db.organizations - OwnedOrganizations(st, id);
      db.campaigns := db.campaigns - OwnedCampaigns(st, id);
      db.donations := Filter(db.donations, d => !CascadedDonation(st, id, d));
      response := Deleted;
    }
  }
}
