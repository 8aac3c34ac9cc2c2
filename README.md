# HelpUp core, modelled in Dafny

HelpUp is a donation platform. Donors keep a wallet, top it up, and donate
from it to campaigns that organizations run. A Spring backend keeps users,
organizations, campaigns, donations and wallet transactions. A React frontend
validates forms, posts them, and summarises what the backend returns.

This project models the rules of that core and proves what they promise:

- **Backend state.** The database is the class `Repositories.Db`, with one
  map per keyed entity, the donation and transaction logs, and the id
  counters. `Db.State()` reads it as a `Store` value.
- **Backend services and controllers.** Each state-changing service
  operation is a pure function on `Store`, plus a `Db` method whose
  `ensures` ties the new state to that function. This covers the wallet
  credit and debit, the top-up and donation ledger entries, donation
  processing, campaign saving and totals, organization updates, the seed
  data, and the user and campaign endpoints. Lemmas about the functions
  state the properties:
  - balances never go negative through a debit;
  - a donation either fails and changes nothing, or debits exactly its
    amount from the wallet and logs one donation for the campaign and one
    transaction (the campaign's stored total is not touched);
  - the campaign view reports the sum of all the campaign's donations,
    whatever their status, and the start-up pass fills only a null or zero
    stored total with the sum of the completed donations;
  - the statistics agree with the logs.
- **Client-side rules.** Each form is a class whose fields the handlers
  update: donate, top up, add campaign, donor and organization
  registration, and the user, add-user and organization dialogs. Its
  checks are functions, and lemmas prove that a form is sent exactly when
  the checks pass. Also covered:
  - the settings page's toggles, presets and privacy score;
  - the campaign list's filter, sort, truncation and status colours;
  - the dashboard and admin statistics, and the donation summaries;
  - the card transformation of `useCampaigns`.

Amounts are exact `real`s, and a Java field that may be null is an `Option`.
The clock and the results of number parsing are parameters.

## Model

| member | source | states |
|---|---|---|
| UserService.Credit | backend/helpup/src/main/java/com/helpup/service/UserService.java:33-42 | fails with "user not found" exactly for an unknown id; otherwise adds the amount to the balance (null read as 0) and changes nothing but that balance |
| UserService.Debit | backend/helpup/src/main/java/com/helpup/service/UserService.java:48-62 | unknown id fails with "user not found"; balance below the amount fails with "insufficient wallet balance" carrying the current balance; succeeds exactly when the user exists and amount ≤ balance, then subtracts the amount, leaves a non-negative balance and changes nothing else |
| UserService.GetWalletBalance | backend/helpup/src/main/java/com/helpup/service/UserService.java:67-73 | fails exactly for an unknown id; a null stored balance reads as 0, any other is returned as stored |
| UserService.HasSufficientBalance | backend/helpup/src/main/java/com/helpup/service/UserService.java:78-81 | holds exactly when the wallet balance is at least the required amount; the unknown-user failure propagates |
| UserService.SufficientIffDebitSucceeds | backend/helpup/src/main/java/com/helpup/service/UserService.java:48-81 | the sufficiency check reports true exactly when the debit of that amount would succeed |
| UserService.CreditThenDebitRestores | backend/helpup/src/main/java/com/helpup/service/UserService.java:33-62 | crediting and then debiting the same amount succeeds and restores the user's balance; no other user's balance and no other store part changes |
| UserService.NegativeCreditGoesBelowZero | backend/helpup/src/main/java/com/helpup/service/UserService.java:33-39 | the credit does not check the amount's sign: a credit of -1 on a zero balance leaves it negative, so positivity is the caller's duty |
| UserService.DebitWholeBalance | backend/helpup/src/main/java/com/helpup/service/UserService.java:52-58 | debiting exactly the balance succeeds and leaves 0 |
| UserService.DebitPreservesNonNegative | backend/helpup/src/main/java/com/helpup/service/UserService.java:48-62 | a successful debit keeps every balance in the store non-negative |
| UserService.CreditPreservesNonNegative | backend/helpup/src/main/java/com/helpup/service/UserService.java:33-42 | a credit of a non-negative amount keeps every balance non-negative |
| UserService.AddToWalletBalance | backend/helpup/src/main/java/com/helpup/service/UserService.java:33-42 | the new repository state is the one Credit gives; the returned user is the saved one; a failure leaves the repository unchanged |
| UserService.DeductFromWalletBalance | backend/helpup/src/main/java/com/helpup/service/UserService.java:48-62 | the new repository state is the one Debit gives; the returned user is the saved one; a failure (unknown user, insufficient balance) leaves the repository unchanged |
| WalletTransactionService.Entry | backend/helpup/src/main/java/com/helpup/service/WalletTransactionService.java:60-64 | a ledger entry carries the user, amount, type and time; null notes become the default text, others are kept verbatim |
| WalletTransactionService.TopUp | backend/helpup/src/main/java/com/helpup/service/WalletTransactionService.java:55-68 | fails exactly for an unknown user; otherwise the balances are Credit's and exactly one "top-up" entry (default note "Wallet top-up") is appended; nothing else changes |
| WalletTransactionService.DonationDeduction | backend/helpup/src/main/java/com/helpup/service/WalletTransactionService.java:74-87 | fails exactly when Debit fails and with Debit's error, appending no entry; otherwise the balances are Debit's and exactly one "donation" entry (default note "Donation deduction") is appended |
| WalletTransactionService.GetTransactionsByUserId | backend/helpup/src/main/java/com/helpup/service/WalletTransactionService.java:45-49 | returns exactly the ledger entries whose user id matches |
| WalletTransactionService.HistoryAppend | backend/helpup/src/main/java/com/helpup/service/WalletTransactionService.java:45-49 | the per-user history of a ledger with one more entry is the old history followed by that entry if it belongs to the user, so store order is kept |
| WalletTransactionService.TopUpExtendsHistory | backend/helpup/src/main/java/com/helpup/service/WalletTransactionService.java:45-68 | after a top-up the user's history gains exactly the new entry at its end and every other user's history is unchanged |
| WalletTransactionService.NetAppend | backend/helpup/src/main/java/com/helpup/service/WalletTransactionService.java:55-87 | the ledger's net amount for a user (top-ups minus donations) is additive over concatenation |
| WalletTransactionService.TopUpAccounted | backend/helpup/src/main/java/com/helpup/service/WalletTransactionService.java:55-68 | a top-up changes every user's balance by exactly the change of that user's net ledger amount |
| WalletTransactionService.DonationAccounted | backend/helpup/src/main/java/com/helpup/service/WalletTransactionService.java:74-87 | a donation deduction changes every user's balance by exactly the change of that user's net ledger amount |
| WalletTransactionService.ApplyAccounted | backend/helpup/src/main/java/com/helpup/service/WalletTransactionService.java:55-87 | one top-up or deduction, successful or not, keeps balance changes equal to net ledger changes |
| WalletTransactionService.RunAccounted | backend/helpup/src/main/java/com/helpup/service/WalletTransactionService.java:55-87 | over any sequence of top-ups and deductions each user's balance change equals their top-up amounts minus their donation amounts in the ledger |
| WalletTransactionService.ApplyKeepsNonNegative | backend/helpup/src/main/java/com/helpup/service/WalletTransactionService.java:55-87 | with a positive top-up amount, one operation keeps all balances non-negative |
| WalletTransactionService.RunKeepsNonNegative | backend/helpup/src/main/java/com/helpup/service/WalletTransactionService.java:55-87 | any sequence of positive top-ups and deductions keeps all balances non-negative |
| WalletTransactionService.TopUpThenDeductRoundTrip | backend/helpup/src/main/java/com/helpup/service/WalletTransactionService.java:55-87 | a top-up followed by a deduction of the same amount succeeds, restores the balance, adds two ledger entries and leaves the net ledger amount unchanged |
| WalletTransactionService.ProcessTopUp | backend/helpup/src/main/java/com/helpup/service/WalletTransactionService.java:55-68 | the repositories end in the state TopUp gives and the returned entry is the one appended; on failure nothing changes because the balance update comes before the save |
| WalletTransactionService.ProcessDonation | backend/helpup/src/main/java/com/helpup/service/WalletTransactionService.java:74-87 | the repositories end in the state DonationDeduction gives and the returned entry is the one appended; on failure nothing changes |
| DonationService.Donate | backend/helpup/src/main/java/com/helpup/service/DonationService.java:71-122 | a missing argument, a non-positive amount, an unknown user, an insufficient balance (error carries balance and amount) and an unknown campaign are rejected in that order and change nothing; success exactly otherwise, debiting the amount, appending one ledger entry "Donation to campaign: name" and one "completed"/"wallet" donation, and reporting the new balance |
| DonationService.DonateAccounted | backend/helpup/src/main/java/com/helpup/service/DonationService.java:71-122 | a donation request keeps every balance change equal to the net ledger change |
| DonationService.DonateKeepsNonNegative | backend/helpup/src/main/java/com/helpup/service/DonationService.java:71-122 | a donation request keeps all balances non-negative |
| DonationService.DonateScenario | backend/helpup/src/main/java/com/helpup/service/DonationService.java:83-113 | 40 from a balance of 100 succeeds with new balance 60 and one new donation and entry; 140 is rejected with balance 100 and amount 140 in the error |
| DonationService.GetDonationsByUserId | backend/helpup/src/main/java/com/helpup/service/DonationService.java:52-56 | returns exactly the donations whose user id matches |
| DonationService.GetDonationsByCampaignId | backend/helpup/src/main/java/com/helpup/service/DonationService.java:61-65 | returns exactly the donations whose campaign id matches |
| DonationService.UserQueryAppend | backend/helpup/src/main/java/com/helpup/service/DonationService.java:52-56 | the by-user query over a store with one more donation is the old result followed by that donation if it matches |
| DonationService.CampaignQueryAppend | backend/helpup/src/main/java/com/helpup/service/DonationService.java:61-65 | the by-campaign query over a store with one more donation is the old result followed by that donation if it matches |
| DonationService.DonateExtendsQueries | backend/helpup/src/main/java/com/helpup/service/DonationService.java:52-108 | a successful donation adds its record to the end of the donor's and the campaign's query results and to no other campaign's |
| DonationService.GetDonationStats | backend/helpup/src/main/java/com/helpup/service/DonationService.java:128-143 | fails exactly when some amount is null; otherwise count is the number of donations, total their sum, and average total/count, or 0 when there are none |
| DonationService.TotalBetween | backend/helpup/src/main/java/com/helpup/service/DonationService.java:131-133 | when every amount lies in [lo, hi], the total lies between count·lo and count·hi |
| DonationService.AverageBetween | backend/helpup/src/main/java/com/helpup/service/DonationService.java:131-140 | when every amount lies in [lo, hi], the average does too |
| DonationService.DonateUpdatesStats | backend/helpup/src/main/java/com/helpup/service/DonationService.java:71-143 | after a successful donation the count grows by one and the total by the amount |
| DonationService.StatsScenario | backend/helpup/src/main/java/com/helpup/service/DonationService.java:128-143 | amounts 10, 20 and 30 give total 60, count 3 and average 20; a null amount fails |
| DonationService.ProcessDonation | backend/helpup/src/main/java/com/helpup/service/DonationService.java:71-122 | the repositories and the response are exactly those of Donate: every failure becomes a rejected response and nothing throws |
| CampaignService.ActualTotalRaisedEmpty | backend/helpup/src/main/java/com/helpup/service/CampaignService.java:97-105 | with no donations the recomputed total is 0 |
| CampaignService.ActualTotalRaised | backend/helpup/src/main/java/com/helpup/service/CampaignService.java:97-105 | with no donation linked to the campaign the recomputed total is 0 |
| CampaignService.ActualTotalRaisedAppend | backend/helpup/src/main/java/com/helpup/service/CampaignService.java:97-105 | one more donation adds its amount (null as 0) when it belongs to the campaign and nothing otherwise |
| CampaignService.ActualTotalRaisedNonNegative | backend/helpup/src/main/java/com/helpup/service/CampaignService.java:97-105 | non-negative amounts give a non-negative total |
| CampaignService.ActualTotalRaisedIgnoresStatus | backend/helpup/src/main/java/com/helpup/service/CampaignService.java:98-100 | changing donation statuses never changes the total: non-"completed" donations count too |
| CampaignService.ConvertToDTO | backend/helpup/src/main/java/com/helpup/service/CampaignService.java:69-92 | id, name, description, dates and target are copied; totalRaised is the recomputed sum; organization name and id are null without an organization and taken from it otherwise |
| CampaignService.DTOIgnoresStoredTotal | backend/helpup/src/main/java/com/helpup/service/CampaignService.java:79 | the stored totalRaised has no effect on the DTO |
| CampaignService.DTOScenario | backend/helpup/src/main/java/com/helpup/service/CampaignService.java:79-105 | a campaign storing 0 with one pending donation of 50 reports 50 |
| CampaignService.DTOs | backend/helpup/src/main/java/com/helpup/service/CampaignService.java:31-35 | converts each campaign in order |
| CampaignService.OrganizationCampaigns | backend/helpup/src/main/java/com/helpup/service/CampaignService.java:47-52 | exactly the campaigns linked to the organization |
| CampaignService.GetCampaignsByOrganizationId | backend/helpup/src/main/java/com/helpup/service/CampaignService.java:47-52 | returns the DTO of every campaign of that organization and of no other |
| CampaignService.SaveCampaign | backend/helpup/src/main/java/com/helpup/service/CampaignService.java:54-63 | a campaign naming an unknown organization fails with "organization not found" and persists nothing; otherwise it is stored under its own id when a stored campaign has that id and under the next generated id (the counter advancing) when it has none or an unknown one; nothing else changes |
| CampaignService.SaveCreatesFresh | backend/helpup/src/main/java/com/helpup/contoller/CampaignController.java:36-39 | creating a campaign (no id, or an unknown one) never overwrites: the new id is not in use, exactly that key is added, every stored campaign is kept and the counter moves past it |
| CampaignService.SaveOverwritesExisting | backend/helpup/src/main/java/com/helpup/service/CampaignService.java:63 | saving under a stored campaign's id replaces that campaign only, keeps the key set and generates no id |
| CampaignService.SaveCampaignKeepsWellKeyed | backend/helpup/src/main/java/com/helpup/service/CampaignService.java:54-63 | a successful save keeps every map entry keyed by its own id and below its counter, and leaves users and ledger alone |
| CampaignService.SaveCampaignIn | backend/helpup/src/main/java/com/helpup/service/CampaignService.java:54-63 | the repository ends in the state SaveCampaign gives and the saved campaign is returned carrying the id it was stored under |
| OrganizationService.ConvertToDTO | backend/helpup/src/main/java/com/helpup/service/OrganizationService.java:63-80 | copies the organization's fields; totalRaised is the sum of the stored campaign totals (null as 0), or 0 when the campaign list is null |
| OrganizationService.ViewSumsListedCampaigns | backend/helpup/src/main/java/com/helpup/service/OrganizationService.java:63-68 | the campaigns whose stored totals the organization view sums are, one for one and in order, those whose views the campaign endpoint lists for the organization |
| OrganizationService.TotalOverCampaignLists | backend/helpup/src/main/java/com/helpup/service/OrganizationService.java:65-68 | the organization total is additive over the campaign list |
| OrganizationService.StoredAndRecomputedDiffer | backend/helpup/src/main/java/com/helpup/service/OrganizationService.java:65-68 | the organization total uses stored campaign totals: a campaign storing 0 with a completed donation of 50 adds 0 here while the campaign DTO reports 50 |
| OrganizationService.Updated | backend/helpup/src/main/java/com/helpup/service/OrganizationService.java:44-48 | overwrites exactly name, contact details, eligibility proof and approval status; id, description, address and user stay |
| OrganizationService.UpdatedLastWins | backend/helpup/src/main/java/com/helpup/service/OrganizationService.java:44-48 | two updates equal the second alone, so repeating an update changes nothing |
| OrganizationService.UpdateOrganization | backend/helpup/src/main/java/com/helpup/service/OrganizationService.java:41-53 | fails with "organization not found" exactly for an unknown id and saves nothing; otherwise replaces only that organization by its updated copy |
| OrganizationService.UpdateOrganizationKeepsWellKeyed | backend/helpup/src/main/java/com/helpup/service/OrganizationService.java:41-53 | a successful update keeps every entry keyed by its own id and leaves the users alone |
| OrganizationService.UpdateOrganizationIn | backend/helpup/src/main/java/com/helpup/service/OrganizationService.java:41-53 | the repository ends in the state UpdateOrganization gives and the saved organization is returned |
| OrganizationService.GetOrganizationByUserId | backend/helpup/src/main/java/com/helpup/service/OrganizationService.java:32-35 | succeeds exactly when one organization is linked to the user and returns it; none linked fails with "organization not found for user"; several linked fail as a non-unique result |
| DataInitializer.CompletedTotal | backend/helpup/src/main/java/com/helpup/config/DataInitializer.java:41-46 | the sum over the campaign's "completed" donations fails exactly when one of them has a null amount |
| DataInitializer.CompletedTotalSkips | backend/helpup/src/main/java/com/helpup/config/DataInitializer.java:42-44 | a donation to another campaign or with any status other than "completed" adds nothing |
| DataInitializer.CompletedTotalAgrees | backend/helpup/src/main/java/com/helpup/config/DataInitializer.java:41-46 | when all of a campaign's donations are completed and have amounts, this total equals the recomputed total of the campaign service |
| DataInitializer.PendingNotCounted | backend/helpup/src/main/java/com/helpup/config/DataInitializer.java:44 | one pending donation of 50 counts 0 here but 50 in the campaign service's recomputation |
| DataInitializer.Initialized | backend/helpup/src/main/java/com/helpup/config/DataInitializer.java:39-53 | the pass keeps the set of campaigns, never changes a campaign whose total is non-null and non-zero, and changes a campaign only by setting its total to its completed-donation sum |
| DataInitializer.InitializedFillsIn | backend/helpup/src/main/java/com/helpup/config/DataInitializer.java:41-51 | when no sum throws, every listed campaign with a null or 0 total gets exactly the sum of its completed donations |
| DataInitializer.InitializedKeepsSettled | backend/helpup/src/main/java/com/helpup/config/DataInitializer.java:49-51 | a campaign that already holds its completed sum (or a non-zero total) still holds it afterwards |
| DataInitializer.InitializedIdempotent | backend/helpup/src/main/java/com/helpup/config/DataInitializer.java:39-53 | running the pass twice gives the same campaigns as running it once |
| DataInitializer.InitializeCampaignTotals | backend/helpup/src/main/java/com/helpup/config/DataInitializer.java:35-58 | the loop leaves exactly the campaigns Initialized gives and changes nothing else; it reports completion exactly when no sum threw, and a throw is caught, keeping the totals saved before it |
| UserController.Get | backend/helpup/src/main/java/com/helpup/contoller/UserController.java:32-37 | a missing request key reads as null, a present one as its value |
| UserController.UserFromBody | backend/helpup/src/main/java/com/helpup/contoller/UserController.java:31-37 | the new user's names come from the snake_case keys first_name and last_name, the other fields from their keys, with a zero wallet |
| UserController.OrganizationFromBody | backend/helpup/src/main/java/com/helpup/contoller/UserController.java:44-49 | the new organization takes name, description and address from the organization_* keys, is linked to the saved user and is "pending" |
| UserController.Register | backend/helpup/src/main/java/com/helpup/contoller/UserController.java:28-57 | saves one user under a fresh id; creates an organization only when the role is exactly "ORGANIZATION"; campaigns, donations and ledger are untouched |
| UserController.RegisterFresh | backend/helpup/src/main/java/com/helpup/contoller/UserController.java:40-50 | the new ids are unused, existing users and organizations are kept, and the new user's balance is 0 |
| UserController.RegisterKeepsWallets | backend/helpup/src/main/java/com/helpup/contoller/UserController.java:28-57 | registration keeps all balances non-negative and balance changes equal to ledger changes |
| UserController.RegisterUser | backend/helpup/src/main/java/com/helpup/contoller/UserController.java:28-57 | the repositories end in the state Register gives |
| UserController.LoginUser | backend/helpup/src/main/java/com/helpup/contoller/UserController.java:60-89 | succeeds exactly when a user with that email exists (uniquely) and the stored password equals the given one, returning that user's fields; organization id and name are set exactly when the role is "organization" ignoring case and a linked organization exists; otherwise 401 |
| UserController.UpdatedUser | backend/helpup/src/main/java/com/helpup/contoller/UserController.java:120-125 | overwrites exactly first name, last name, email, contact number and role; id, password and wallet balance are kept |
| UserController.UpdateUser | backend/helpup/src/main/java/com/helpup/contoller/UserController.java:117-131 | an unknown id fails with "user not found" (answered 401 by the controller's handler) and saves nothing; otherwise replaces only that user by the updated copy |
| UserController.UpdateUserKeepsWallets | backend/helpup/src/main/java/com/helpup/contoller/UserController.java:117-131 | an update changes no balance, keeps the ledger accounting and non-negativity, and repeating it changes nothing |
| UserController.UpdateUserIn | backend/helpup/src/main/java/com/helpup/contoller/UserController.java:117-131 | the repository ends in the state UpdateUser gives and the saved user is returned |
| UserController.DeleteUser | backend/helpup/src/main/java/com/helpup/contoller/UserController.java:134-142 | answers 404 exactly for an unknown id, and 401 (the RuntimeException handler at lines 91-94) exactly for a user the wallet ledger still refers to, removing nothing in either case; otherwise removes the user, the organizations linked to it, their campaigns, and every donation by the user or to those campaigns, leaving the ledger as it was |
| UserController.DeleteTwice | backend/helpup/src/main/java/com/helpup/contoller/UserController.java:134-142 | a user with no ledger entries is deleted and a second delete of the same id answers 404; a user with ledger entries is refused with nothing removed, every time |
| UserController.DeletedLeavesNoReference | backend/helpup/src/main/java/com/helpup/contoller/UserController.java:134-142 | after a delete no organization links to the user, no remaining campaign belonged to its organizations, no remaining donation is the user's, every donation outside the cascade is kept, and the other users and the ledger are unchanged |
| UserController.ToppedUpUserIsKept | backend/helpup/src/main/java/com/helpup/contoller/UserController.java:134-142 | once a top-up for the user has succeeded, deleting that user answers 401 and removes nothing |
| UserController.DeleteUserIn | backend/helpup/src/main/java/com/helpup/contoller/UserController.java:134-142 | the repositories and the answer are those DeleteUser gives, cascade and refusal included |
| CampaignController.Edited | backend/helpup/src/main/java/com/helpup/contoller/CampaignController.java:49-60 | overwrites exactly name, description, target amount and both dates; id and stored total stay; the organization is kept when the request omits it and replaced otherwise |
| CampaignController.UpdateCampaign | backend/helpup/src/main/java/com/helpup/contoller/CampaignController.java:42-65 | an unknown id fails before any save; success exactly when the edited campaign saves, storing only it and returning its DTO |
| CampaignController.UpdateCampaignKeepsMoney | backend/helpup/src/main/java/com/helpup/contoller/CampaignController.java:49-64 | the update keeps the stored total, the donations, users, ledger and every other campaign; the returned totalRaised is the recomputed sum; repeating the update changes nothing |
| CampaignController.UpdateCampaignKeepsOrganization | backend/helpup/src/main/java/com/helpup/contoller/CampaignController.java:55-63 | a request without organization keeps the existing one, and then succeeds exactly when that organization is absent or still exists |
| CampaignController.UpdateCampaignIn | backend/helpup/src/main/java/com/helpup/contoller/CampaignController.java:42-65 | the repository and the returned DTO are those UpdateCampaign gives |
| SettingsPage.Get | frontend/src/SettingsPage/SettingsPage.jsx:59-62 | reading a key of an object gives its value, or undefined when absent; reading a property of undefined throws |
| SettingsPage.With | frontend/src/SettingsPage/SettingsPage.jsx:56-64 | a spread with one key replaced is an object holding the spread fields with that key set |
| SettingsPage.AtTarget | frontend/src/SettingsPage/SettingsPage.jsx:53-76 | the value at the addressed path (category.field or category.field.subfield) is the one the handlers read |
| SettingsPage.AtWith | frontend/src/SettingsPage/SettingsPage.jsx:56-64 | after a spread update the replaced key leads to the new value and every other key to the old one |
| SettingsPage.Select | frontend/src/SettingsPage/SettingsPage.jsx:78-101 | the update throws (reading through `undefined`) exactly when the settings are undefined, or a subfield is addressed under an undefined category; otherwise the result is an object holding the value at the addressed path |
| SettingsPage.SelectSetsOnlyTarget | frontend/src/SettingsPage/SettingsPage.jsx:78-101 | select succeeds on a reachable path, sets that path to the value and leaves every path apart from it unchanged |
| SettingsPage.SelectKeepsApart | frontend/src/SettingsPage/SettingsPage.jsx:78-101 | select leaves every path that is neither a prefix nor an extension of the target unchanged |
| SettingsPage.SelectIdempotent | frontend/src/SettingsPage/SettingsPage.jsx:78-101 | selecting the same value twice equals selecting it once |
| SettingsPage.Toggle | frontend/src/SettingsPage/SettingsPage.jsx:53-76 | the update throws exactly when a step before the addressed setting reads through `undefined`; otherwise the addressed setting becomes the boolean negation of the truthiness it had |
| SettingsPage.ToggleNegatesOnlyTarget | frontend/src/SettingsPage/SettingsPage.jsx:53-76 | toggle sets the addressed setting to the negation of its truthiness and leaves every path apart from it unchanged |
| SettingsPage.ToggleTwiceRestores | frontend/src/SettingsPage/SettingsPage.jsx:53-76 | toggling a boolean setting twice restores the original settings |
| SettingsPage.CalculatePrivacyScore | frontend/src/SettingsPage/SettingsPage.jsx:103-127 | the accumulated score is the sum of the six setting points capped at 100, and lies in [0, 100] |
| SettingsPage.RawScoreBounded | frontend/src/SettingsPage/SettingsPage.jsx:104-126 | the uncapped sum is already in [0, 100], so the cap never lowers a score |
| SettingsPage.MorePrivateNeverLowers | frontend/src/SettingsPage/SettingsPage.jsx:108-124 | setting any one scored setting to its most private value never lowers the score |
| SettingsPage.Level | frontend/src/SettingsPage/SettingsPage.jsx:129-133 | High exactly for scores of at least 80, Medium exactly for 60 to 79, Low exactly below 60 |
| SettingsPage.LevelMonotone | frontend/src/SettingsPage/SettingsPage.jsx:129-133 | a higher score never gives a lower level |
| SettingsPage.ApplyPreset | frontend/src/SettingsPage/SettingsPage.jsx:344-403 | a preset keeps every top-level category except privacy, whose six preset keys it overwrites |
| SettingsPage.PresetScores | frontend/src/SettingsPage/SettingsPage.jsx:344-403 | Public scores 0 (Low), Balanced 40 (Low), Private 100 (High), whatever the settings were before |
| SettingsPage.PresetOverrides | frontend/src/SettingsPage/SettingsPage.jsx:348-356 | after a preset every key it names holds the preset's value |
| SettingsPage.SameScoredSettings | frontend/src/SettingsPage/SettingsPage.jsx:104-126 | the score depends only on the six scored keys |
| DonateModal.ValidateAmount | frontend/src/DonationPage/DonateModal.jsx:40-55 | empty exactly when the amount is non-blank, parses, is at least 10 and at most the wallet balance; otherwise the first failing check's message in the order required, positive, minimum 10, balance |
| DonateModal.WholeBalanceAccepted | frontend/src/DonationPage/DonateModal.jsx:51 | an amount equal to the wallet balance (when that is at least 10) is accepted |
| DonateModal.LowBalanceRejectsAll | frontend/src/DonationPage/DonateModal.jsx:48-53 | with a balance below 10 no amount is accepted |
| DonateModal.AcceptedAmountIsDonated | frontend/src/DonationPage/DonateModal.jsx:40-55 | an amount the form accepts against the stored balance is one the backend's donation accepts, leaving a non-negative balance |
| DonateModal.LocalError | frontend/src/DonationPage/DonateModal.jsx:88-102 | empty exactly when the amount validates, a user id and a campaign id are present; a validation message takes precedence over the missing-user and missing-campaign messages |
| DonateModal.ServerCalls | frontend/src/DonationPage/DonateModal.jsx:104-121 | the balance check is always the first server call; the donation is sent second, with the parsed amount and the note "Donation to title", exactly when the check reported sufficient funds |
| DonateModal.SubmitCalls | frontend/src/DonationPage/DonateModal.jsx:83-141 | no server call unless every local check passes; then the balance check, and the donation only after it reports sufficient funds |
| DonateModal.SubmitState | frontend/src/DonationPage/DonateModal.jsx:83-141 | a failed local check (amount, login, campaign, in that order) sets only its message under "amount" and stops; once they pass, the state is the server outcome on the cleared form; "Donation successful! …" is shown, with no error, exactly when the local checks, the balance check and the donation all succeed |
| DonateModal.ServerOutcome | frontend/src/DonationPage/DonateModal.jsx:104-140 | loading ends off; success is shown exactly when the balance check passes and the donation reply succeeds; a thrown check gives the "balance" error "Failed to check balance", a short balance the server's current and required amounts under "balance", a failed reply its error or "Donation failed" under "amount", and a thrown donation its message or "Failed to process donation"; no success message in any of these |
| DonateModal.SentAmountInRange | frontend/src/DonationPage/DonateModal.jsx:88-121 | a donation that is sent carries the parsed amount, which lies between 10 and the wallet balance, and a present user and campaign id |
| DonateModal.DonateForm.constructor | frontend/src/DonationPage/DonateModal.jsx:6-12 | the form starts empty, without errors, loading or message, and has made no calls |
| DonateModal.DonateForm.HandleChange | frontend/src/DonationPage/DonateModal.jsx:30-38 | the amount takes the new value; an amount error clears all errors, otherwise a balance error is cleared alone |
| DonateModal.DonateForm.HandleSubmit | frontend/src/DonationPage/DonateModal.jsx:83-141 | the form ends in SubmitState and the server calls made are exactly SubmitCalls |
| DonateModal.DonateForm.Contact | frontend/src/DonationPage/DonateModal.jsx:104-140 | the form ends in ServerOutcome and the calls made are exactly ServerCalls |
| DonateModal.DigitsNotBlank | frontend/src/DonationPage/DonateModal.jsx:237 | the decimal text of a quick-select amount is never blank |
| DonateModal.QuickSelectDisabled | frontend/src/DonationPage/DonateModal.jsx:238 | an enabled quick-select amount of at least 10 passes the amount check |
| DonateModal.SubmitDisabled | frontend/src/DonationPage/DonateModal.jsx:264 | whenever the submit button is enabled, the minimum amount of 10 passes the amount check |
| DonateModal.EnabledButtonsAgree | frontend/src/DonationPage/DonateModal.jsx:233-264 | an enabled quick-select amount passes validation and leaves submit enabled, since quick amounts are at least 10 and at most the balance |
| TopUpModal.ValidateAmount | frontend/src/TopUpPage/TopUpModal.jsx:16-25 | empty exactly when the amount is non-blank and parses to a positive number; otherwise "Amount is required" for a blank amount and "Amount must be a positive number" for the rest |
| TopUpModal.NoUpperBound | frontend/src/TopUpPage/TopUpModal.jsx:16-25 | above any bound there is an accepted amount |
| TopUpModal.DonationRulesStricter | frontend/src/TopUpPage/TopUpModal.jsx:16-25 | every amount the donation form accepts the top-up form accepts, and the top-up's rejections carry the donation form's first message |
| TopUpModal.TopUpForm.constructor | frontend/src/TopUpPage/TopUpModal.jsx:4-7 | the form starts empty, without errors, loading or message |
| TopUpModal.TopUpForm.HandleChange | frontend/src/TopUpPage/TopUpModal.jsx:9-14 | the amount takes the new value and an amount error clears all errors |
| TopUpModal.TopUpForm.Validate | frontend/src/TopUpPage/TopUpModal.jsx:32-36 | reports whether the amount validates and records the message when it does not |
| TopUpModal.TopUpForm.HandleSubmit | frontend/src/TopUpPage/TopUpModal.jsx:27-48 | the success message is cleared; an invalid amount records its message and returns before loading starts; a valid one clears errors and starts loading; no wallet service is called |
| TopUpModal.TopUpForm.SimulatedReply | frontend/src/TopUpPage/TopUpModal.jsx:41-43 | the timer shows "Top up successful!" and stops loading, changing nothing else |
| AddCampaignModal.NameError | frontend/src/components/AddCampaignModal.jsx:34-38 | no name error exactly when the trimmed name has at least 3 characters; blank gives "required", shorter gives "at least 3 characters" |
| AddCampaignModal.TargetError | frontend/src/components/AddCampaignModal.jsx:44-48 | no target error exactly when the text is non-blank, Number() parses it and parseFloat does not give a value ≤ 0 |
| AddCampaignModal.EndError | frontend/src/components/AddCampaignModal.jsx:54-73 | a missing end date is "required"; start on or after end gives "after start date", overriding the earlier message; no error exactly when the end date is present, not before today and after a present start date |
| AddCampaignModal.ValidateForm | frontend/src/components/AddCampaignModal.jsx:31-77 | the error map holds exactly the fields whose rule fails, each with its message |
| AddCampaignModal.ValidIffAllFieldsPass | frontend/src/components/AddCampaignModal.jsx:31-77 | the form is valid exactly when the trimmed name has 3 or more characters, the description is non-blank, the target is a positive number, both dates are present and the end is neither before today nor on or before the start |
| AddCampaignModal.EmptyIffNoFieldError | frontend/src/components/AddCampaignModal.jsx:75-76 | the error map is empty exactly when none of the five fields has an error |
| AddCampaignModal.OrderMessageOverrides | frontend/src/components/AddCampaignModal.jsx:67-73 | with both dates present and start on or after end, the end-date message is "after start date" whatever the earlier check said |
| AddCampaignModal.ValidPayload | frontend/src/components/AddCampaignModal.jsx:106-113 | a valid form's payload has a trimmed name of at least 3 characters, a non-empty description and a positive numeric target |
| AddCampaignModal.TrimIdempotent | frontend/src/components/AddCampaignModal.jsx:107-108 | trimming an already trimmed name or description changes nothing |
| AddCampaignModal.AddCampaignForm.constructor | frontend/src/components/AddCampaignModal.jsx:4-29 | the form opens empty with today's start date, no errors, no success banner and nothing saved |
| AddCampaignModal.AddCampaignForm.HandleChange | frontend/src/components/AddCampaignModal.jsx:79-93 | the edited field takes the value and no other field changes; only the edited field's error is cleared to "" |
| AddCampaignModal.AddCampaignForm.HandleSubmit | frontend/src/components/AddCampaignModal.jsx:95-135 | the recorded errors are the validation result; an invalid form saves nothing and changes no flag; a valid one hands exactly its payload to onSave, shows success when onSave resolves, and ends not submitting |
| Register.ValidateForm | frontend/src/Register/Register.jsx:27-41 | the error map holds exactly the personal fields whose rule fails, each with its message |
| Register.Field | frontend/src/Register/Register.jsx:27-41 | a field reads as present with its value exactly when its key is in the form, and as `undefined` otherwise |
| Register.ValidIffRulesPass | frontend/src/Register/Register.jsx:27-41 | the form is valid exactly when both names are non-blank, the email is non-blank and matches the email pattern, the password is present with at least 6 characters and the confirmation field equals it; the confirmation error is present exactly when the two fields differ, an absent field counting as `undefined` |
| Register.EmptyIffNoMessage | frontend/src/Register/Register.jsx:39-40 | the error map is empty exactly when no personal field has a message |
| Register.NoMessageIffRulesPass | frontend/src/Register/Register.jsx:29-37 | no personal field has a message exactly when all the rules pass |
| Register.PasswordLengthBoundary | frontend/src/Register/Register.jsx:33-35 | a 6-character password passes the length rule and a 5-character one fails it |
| Register.Settled | frontend/src/Register/Register.jsx:62-70 | an ok reply shows the page's success message and no error; a failed reply or a network error shows exactly one error, under "general", and no message |
| Register.RegisterForm.constructor | frontend/src/Register/Register.jsx:4-16 | the form starts with the declared keys, all empty and the role "DONOR", without errors, loading or message |
| Register.RegisterForm.HandleChange | frontend/src/Register/Register.jsx:18-25 | the changed field takes the value; only its error is cleared, and only when it was set |
| Register.RegisterForm.Validate | frontend/src/Register/Register.jsx:27-41 | with every trimmed field present, records the validation result and reports whether it is empty; with one absent, `.trim()` throws, nothing is recorded and the answer is false |
| Register.RegisterForm.HandleSubmit | frontend/src/Register/Register.jsx:44-73 | clears the errors and the message first; a form that is invalid or whose validation throws is never sent; a valid one is sent once, ends not loading, and shows what Settled gives for the reply |
| Register.RegisterForm.Post | frontend/src/Register/Register.jsx:50-72 | sends the form once, stops loading, and shows the errors and message Settled gives for the reply |
| Register.AsWrittenLosesNames | frontend/src/Register/Register.jsx:5-11 | a valid form with the camelCase keys has non-empty names, yet the backend stores the new user with no first or last name |
| Register.EndpointNamesNotDeclared | frontend/src/Register/Register.jsx:4-12 | the declared form has no first_name or last_name key |
| Register.EndpointKeysKeepNames | backend/helpup/src/main/java/com/helpup/contoller/UserController.java:32-36 | with the snake_case keys the backend stores the form's non-blank names, email and password |
| OrgRegister.OrganizationErrors | frontend/src/Register/OrgRegister.jsx:38-43 | holds exactly the organization_* fields that are blank after trim, each with its message |
| OrgRegister.KeysDisjoint | frontend/src/Register/OrgRegister.jsx:29-43 | the personal keys and the organization keys are distinct, so neither rule group overwrites the other's message |
| OrgRegister.PersonalErrorsShared | frontend/src/Register/OrgRegister.jsx:29-37 | every personal-field message of the donor form appears unchanged in this form's errors |
| OrgRegister.OrganizationErrorsIffFieldsPass | frontend/src/Register/OrgRegister.jsx:38-43 | no organization message exactly when name, description and address are all non-blank after trim |
| OrgRegister.ValidateForm | frontend/src/Register/OrgRegister.jsx:27-47 | the error keys are those of the donor rules plus those of the organization rules, and each organization error carries its own message |
| OrgRegister.ValidIffRulesPass | frontend/src/Register/OrgRegister.jsx:27-47 | the form is valid exactly when the personal rules of the donor form and the three organization rules all pass |
| OrgRegister.ValidFormCreatesOrganization | frontend/src/Register/OrgRegister.jsx:4-15 | a valid form with role "ORGANIZATION" and snake_case keys makes the backend store a "pending" organization linked to the new user, with the non-blank organization fields, and the user's non-blank names |
| OrgRegisterPage.OrgRegisterForm.constructor | frontend/src/Register/OrgRegister.jsx:4-19 | the form starts with the snake_case keys, all empty and the role "ORGANIZATION", without errors, loading or message |
| OrgRegisterPage.OrgRegisterForm.HandleChange | frontend/src/Register/OrgRegister.jsx:21-25 | the changed field takes the value; only its error is cleared, and only when it was set |
| OrgRegisterPage.OrgRegisterForm.Validate | frontend/src/Register/OrgRegister.jsx:27-47 | with every trimmed field present, records the validation result and reports whether it is empty; with one absent, `.trim()` throws, nothing is recorded and the answer is false |
| OrgRegisterPage.OrgRegisterForm.HandleSubmit | frontend/src/Register/OrgRegister.jsx:49-80 | clears the errors and the message first; a form that is invalid or whose validation throws is never sent; a valid one is sent once, ends not loading, and shows what Settled gives for the reply, with "Organization registered successfully!" on an ok reply |
| OrgRegisterPage.OrgRegisterForm.Post | frontend/src/Register/OrgRegister.jsx:55-79 | sends the form once, stops loading, and shows the errors and message Settled gives for the reply |
| UserModal.Validate | frontend/src/components/UserModal.jsx:42-53 | the error map holds exactly the fields whose rule fails, each with its message |
| UserModal.ValidIffRulesPass | frontend/src/components/UserModal.jsx:42-53 | valid exactly when first name, last name and email are non-blank, the email matches the pattern and, in add mode only, the password has at least 6 characters |
| UserModal.PasswordIgnoredOutsideAdd | frontend/src/components/UserModal.jsx:48-51 | in edit mode the password never affects validation |
| UserModal.OpenedForm | frontend/src/components/UserModal.jsx:26-40 | on opening the password is always empty and the role defaults to "donor", so a freshly opened add form asks for a password |
| UserModal.SubmittedPayload | frontend/src/components/UserModal.jsx:68-77 | a submitted payload has no password in edit mode, a password of 6 or more characters in add mode, and valid names and email |
| UserModal.UserDialog.constructor | frontend/src/components/UserModal.jsx:14-23 | the dialog starts empty with role "donor", no errors, nothing touched and nothing saved |
| UserModal.UserDialog.Open | frontend/src/components/UserModal.jsx:26-40 | opening fills the form from the initial data and clears errors and touched fields |
| UserModal.UserDialog.HandleChange | frontend/src/components/UserModal.jsx:55-60 | the field takes the value, is marked touched, and the errors are those of the new form |
| UserModal.UserDialog.HandleBlur | frontend/src/components/UserModal.jsx:62-66 | the field is marked touched and the errors are re-validated |
| UserModal.UserDialog.HandleSubmit | frontend/src/components/UserModal.jsx:68-77 | all fields are marked touched and the errors recorded; only an error-free form reaches onSave, without password in edit mode |
| AddUserModal.ValidateForm | frontend/src/components/AddUserModal.jsx:20-37 | the error map holds exactly the fields whose rule fails, each with its message |
| AddUserModal.ValidIffRulesPass | frontend/src/components/AddUserModal.jsx:20-37 | valid exactly when the trimmed name has at least 2 characters and the email is non-blank and matches the pattern |
| AddUserModal.NameLengthBoundary | frontend/src/components/AddUserModal.jsx:25-27 | a trimmed name of 1 character is rejected and one of 2 is accepted |
| AddUserModal.AddUserDialog.constructor | frontend/src/components/AddUserModal.jsx:4-11 | the dialog starts with name "", email "" and role "User", without errors, and nothing saved |
| AddUserModal.AddUserDialog.HandleChange | frontend/src/components/AddUserModal.jsx:39-53 | the field takes the value; only its error is cleared to "" |
| AddUserModal.AddUserDialog.HandleSubmit | frontend/src/components/AddUserModal.jsx:55-83 | the errors are recorded; an invalid form is not saved; a valid one reaches onSave once, shows success when the save succeeds, and ends not submitting |
| AddUserModal.AddUserDialog.AfterSuccess | frontend/src/components/AddUserModal.jsx:69-77 | the success timer resets the form, hides the message and closes; errors, saved forms and the submitting flag are unchanged |
| AddUserModal.AddUserDialog.HandleCancel | frontend/src/components/AddUserModal.jsx:85-93 | cancel resets the form to name "", email "" and role "User", clears all errors and closes; saved forms, the submitting flag and the success message are unchanged |
| AddUserModal.CancelledFormIsIncomplete | frontend/src/components/AddUserModal.jsx:85-93 | the reset form fails validation exactly on name and email, with the "required" messages |
| AddUserModal.EmptyFormMessages | frontend/src/components/AddUserModal.jsx:23-33 | the empty form's name and email messages are the "required" ones, and the role has none |
| OrganizationModal.OpenedForm | frontend/src/components/OrganizationModal.jsx:24-38 | on opening the status defaults to "pending", and without a name the form reports only "Organization name is required" |
| OrganizationModal.Validate | frontend/src/components/OrganizationModal.jsx:40-44 | no error exactly when the name is non-blank after trim; otherwise only the name message |
| OrganizationModal.OnlyNameChecked | frontend/src/components/OrganizationModal.jsx:40-44 | contact details, eligibility proof and approval status never produce errors or change the result |
| OrganizationModal.OrganizationDialog.constructor | frontend/src/components/OrganizationModal.jsx:14-21 | the dialog starts empty with status "pending", no errors, nothing touched and nothing saved |
| OrganizationModal.OrganizationDialog.Open | frontend/src/components/OrganizationModal.jsx:24-38 | opening fills the form from the initial data and clears errors and touched fields |
| OrganizationModal.OrganizationDialog.HandleChange | frontend/src/components/OrganizationModal.jsx:46-51 | the field takes the value, is marked touched, and the errors are those of the new form |
| OrganizationModal.OrganizationDialog.HandleBlur | frontend/src/components/OrganizationModal.jsx:53-57 | the field is marked touched and the errors are re-validated |
| OrganizationModal.OrganizationDialog.HandleSubmit | frontend/src/components/OrganizationModal.jsx:59-67 | all fields are marked touched and the errors recorded; onSave receives the unchanged form exactly when the name is non-blank |
| Campaigns.TruncateText | frontend/src/OrganizationPage/Campaigns.jsx:18-22 | a missing or empty text gives ""; text no longer than the maximum is returned unchanged; the result is never longer than the maximum plus one |
| Campaigns.TruncatedIsPrefixRun | frontend/src/OrganizationPage/Campaigns.jsx:21 | a text longer than the maximum gives a result ending in "…" whose remainder is a contiguous run of the text lying inside its first maxLength characters |
| Campaigns.TrimIsRun | frontend/src/OrganizationPage/Campaigns.jsx:21 | the trimmed text is the run of the text that starts after its leading blanks |
| Campaigns.RunOfPrefix | frontend/src/OrganizationPage/Campaigns.jsx:21 | a run inside the first n characters is a run of the whole text ending by position n |
| Campaigns.StatusColor | frontend/src/OrganizationPage/Campaigns.jsx:24-31 | Active, Completed and Paused each map to their own class and only they do; every other status gets the grey default |
| Campaigns.FilteredCampaigns | frontend/src/OrganizationPage/Campaigns.jsx:33-57 | the sorted list is a permutation of the filtered list |
| Campaigns.FilteredExactlyMatching | frontend/src/OrganizationPage/Campaigns.jsx:33-39 | a campaign is listed exactly when it is in the input, its title or description contains the search term ignoring case, and its status equals the filter unless the filter is "All"; the list is never longer than the input |
| Campaigns.SortedByKey | frontend/src/OrganizationPage/Campaigns.jsx:40-57 | for every recognised date or goal order the list is ordered by that order's key |
| Sorting.SortByKey | frontend/src/services/adminService.js:143 | the sorted list is a permutation of the input, of the same length; order and stability are proved by Sorting.SortOrdered and Sorting.SortStable |
| Sorting.SortOrdered | frontend/src/services/adminService.js:143 | the sorted list is in ascending key order (a descending comparator is an ascending sort on the negated key) |
| Sorting.SortKeepsOrdered | frontend/src/OrganizationPage/Campaigns.jsx:40-57 | a list already in key order comes back unchanged |
| Sorting.SortStable | frontend/src/OrganizationPage/Campaigns.jsx:40-57 | the sort is stable: campaigns with equal keys keep their input order |
| Campaigns.GoalOrder | frontend/src/OrganizationPage/Campaigns.jsx:46-49 | "goal-high" gives non-increasing goals and "goal-low" non-decreasing goals |
| Campaigns.DateOrder | frontend/src/OrganizationPage/Campaigns.jsx:42-45 | "newest" gives non-increasing and "oldest" non-decreasing posted dates |
| Campaigns.UnknownSortKeepsOrder | frontend/src/OrganizationPage/Campaigns.jsx:54-55 | an unrecognised sort key compares as 0, so the filtered order is kept |
| Campaigns.EmptySearchKeepsAll | frontend/src/OrganizationPage/Campaigns.jsx:35-37 | an empty search term with status "All" keeps every campaign, in order when no sort key applies |
| Campaigns.DaysLeft | frontend/src/OrganizationPage/Campaigns.jsx:168 | never negative; 0 without an end date; otherwise the number of days to the end date rounded up |
| Dashboard.CountStatus | frontend/src/OrganizationPage/Dashboard.jsx:5-6 | the count of campaigns with a status is at most the number of campaigns |
| Dashboard.ActiveCampaigns | frontend/src/OrganizationPage/Dashboard.jsx:5 | the active count is at most the number of campaigns |
| Dashboard.CountsDisjoint | frontend/src/OrganizationPage/Dashboard.jsx:5-6 | counts of two different statuses add up to at most the number of campaigns |
| Dashboard.ActiveAndCompletedBounded | frontend/src/OrganizationPage/Dashboard.jsx:5-6 | active and completed campaigns together are at most all campaigns |
| Dashboard.TotalDonors | frontend/src/OrganizationPage/Dashboard.jsx:7 | when no campaign has raised a full 100, the donor estimate is not positive |
| Dashboard.TotalDonorsBounds | frontend/src/OrganizationPage/Dashboard.jsx:7 | with non-negative amounts raised, the donor estimate is non-negative and at most the total raised divided by 100 |
| Dashboard.AvgDonation | frontend/src/OrganizationPage/Dashboard.jsx:8 | with at least one estimated donor the average times the donor count gives back the total raised; with none it is the total raised itself |
| Dashboard.SuccessRate | frontend/src/OrganizationPage/Dashboard.jsx:9 | with no campaigns the success rate is 0 |
| Dashboard.RoundedPercent | frontend/src/OrganizationPage/Dashboard.jsx:9 | the result r satisfies 2·r·total ≤ 200·completed + total < 2·(r + 1)·total: it is the exact percentage rounded to the nearest whole, halves up |
| Dashboard.RoundedPercentNearest | frontend/src/OrganizationPage/Dashboard.jsx:9 | the rounded percentage is the nearest whole percent (halves up), lies in [0, 100], is 0 for none completed and 100 for all |
| Dashboard.SuccessRateBounds | frontend/src/OrganizationPage/Dashboard.jsx:9 | the success rate always lies in [0, 100] and is 100 when every campaign is completed |
| AdminService.FormatTimeAgo | frontend/src/services/adminService.js:156-178 | the loop over the units returns the phrase that TimeAgo defines for the elapsed whole seconds |
| AdminService.FirstUnitIsLargest | frontend/src/services/adminService.js:161-175 | the unit chosen is the first (largest) one that fits at least once into the elapsed seconds; none is chosen exactly when no unit fits |
| AdminService.WholeUnitElapsed | frontend/src/services/adminService.js:171-172 | the floored count of a unit is at least 1 exactly when at least one whole unit has elapsed |
| AdminService.TimeAgo | frontend/src/services/adminService.js:156-178 | under 60 elapsed seconds, a future date included, the phrase is "Just now"; anything longer is a phrase ending in " ago" |
| AdminService.TimeAgoLargestUnit | frontend/src/services/adminService.js:159-177 | fewer than 60 seconds, including future dates, give "Just now"; otherwise the phrase reports the largest unit whose floored count is at least 1, with all larger units counting 0 |
| AdminService.PluralIffMoreThanOne | frontend/src/services/adminService.js:173 | the phrase ends in "s ago" exactly when the count is more than 1 |
| AdminService.ActiveUsers | frontend/src/services/adminService.js:23 | the number of users whose role is not exactly "ADMIN" is at most the number of users |
| AdminService.RecentDonations | frontend/src/services/adminService.js:27-33 | exactly the donations dated within the last 24 hours |
| AdminService.RecentUsers | frontend/src/services/adminService.js:37-38 | the number of recent users is min(5, ceil(n/10)) for n users, never more than five nor more than there are |
| AdminService.RecentUsersShape | frontend/src/services/adminService.js:37-38 | recent users are at most 5 and at most all users, at least one when there are users, all taken from the input and ordered by descending userID |
| AdminService.Growth | frontend/src/services/adminService.js:46-47 | a growth figure lies in [0, 100] and is 0 when nothing is recent |
| AdminService.GrowthBounds | frontend/src/services/adminService.js:46-47 | a growth figure lies in [0, 100], is 0 with no recent items and 100 when every item is recent |
| AdminService.DashboardStats | frontend/src/services/adminService.js:12-67 | totalUsers is the number of users and activeUsers at most that; user growth is 0 without users, and donation growth is 0 without a donation in the last 24 hours |
| AdminService.DashboardStatsBounds | frontend/src/services/adminService.js:12-67 | active users are at most all users, which is the list length, and both growth figures lie in [0, 100] |
| AdminService.RecentActivity | frontend/src/services/adminService.js:74-149 | the feed holds min(limit, number of items pushed) activities |
| AdminService.GetRecentActivity | frontend/src/services/adminService.js:74-149 | the pushed, sorted and limited feed equals RecentActivity |
| AdminService.PushDonations | frontend/src/services/adminService.js:103-113 | one donation activity per selected donation, in order, stamped with its date |
| AdminService.PushUsers | frontend/src/services/adminService.js:116-128 | one registration activity per selected user, in order, stamped with the estimate from userID, user count and now |
| AdminService.PushCampaigns | frontend/src/services/adminService.js:131-140 | one campaign activity per selected campaign, in order, stamped with its start date |
| AdminService.RecentActivityShape | frontend/src/services/adminService.js:143-144 | the feed holds at most limit items, in non-increasing timestamp order, each made from the selected donations, users or campaigns |
| AdminService.FeedShares | frontend/src/services/adminService.js:83-97 | at most limit/2 donations, ceil(limit/3) users and limit/4 campaigns are selected, and only campaigns with a start date |
| DonationSummary.MissingAmountsAddNothing | frontend/src/services/donationService.js:167 | donations without an amount add nothing to the total |
| DonationSummary.ResolveOrganization | frontend/src/services/donationService.js:173-198 | the resolved organization id is missing or truthy, and a resolved id is one of the five candidates |
| DonationSummary.ResolveIsFirstTruthyCandidate | frontend/src/services/donationService.js:173-198 | the organization id is the first truthy one of the five candidate locations in their fixed order, and none exactly when all are falsy |
| DonationSummary.ResolvedIdsMembers | frontend/src/services/donationService.js:170-203 | an id is in the set exactly when some donation resolves to it, so unresolvable donations count for nothing |
| DonationSummary.ResolvedIdsBound | frontend/src/services/donationService.js:170-207 | the number of distinct organizations is at most the number of donations |
| DonationSummary.UniqueOrganizations | frontend/src/services/donationService.js:170-203 | the set built by the loop is exactly the set of resolved ids |
| DonationSummary.TotalAmount | frontend/src/services/donationService.js:167 | with no negative amount the total is non-negative |
| DonationSummary.UserDonationSummary | frontend/src/services/donationService.js:161-221 | a failed fetch gives the all-zero summary; otherwise the list (array, else .data, else empty) gives the total with missing amounts as 0, the distinct organization count and the list length |
| DonationSummary.SummaryBounds | frontend/src/services/donationService.js:167-208 | organizationsHelped is at most donationCount, and non-negative amounts give a non-negative total |
| DonationSummary.ActiveKeys | frontend/src/services/donationService.js:234-239 | the map's keys in insertion order: each campaign id at most once, and exactly the ids of donated campaigns whose status is exactly "ACTIVE" |
| DonationSummary.LastVersion | frontend/src/services/donationService.js:234-239 | the campaign of the last active donation to that id, if any: it comes from an active donation to that id after which no active donation to that id follows; absent exactly when no active donation names the id |
| DonationSummary.ActiveById | frontend/src/services/donationService.js:234-239 | the map holds exactly those ids, each to an "ACTIVE" campaign carrying that id, which is the last version of it in the list |
| DonationSummary.UserActiveCampaignsFrom | frontend/src/services/donationService.js:233-241 | the loop over the donations returns exactly ActiveCampaigns |
| DonationSummary.ActiveCampaigns | frontend/src/services/donationService.js:234-241 | one campaign per distinct active key, in insertion order, each the last version set under its key |
| DonationSummary.UserActiveCampaigns | frontend/src/services/donationService.js:228-246 | a failed fetch gives the empty list; otherwise the active campaigns of the fetched list |
| DonationSummary.ActiveCampaignsUnique | frontend/src/services/donationService.js:234-241 | every returned campaign is "ACTIVE", no campaign id appears twice, every active donated campaign appears, and each appears as the last version of it seen |
| Text.OrText | frontend/src/hooks/useCampaigns.js:56-58 | `text || fallback` on a string: a present non-empty text is kept, anything else becomes the fallback (also the `initialData?.x || default` of the user and organization dialogs and the error fallbacks of the donation dialog) |
| UseCampaigns.CampaignImage | frontend/src/hooks/useCampaigns.js:90-108 | always one of the four image paths |
| UseCampaigns.ImageIsFirstMatchingRule | frontend/src/hooks/useCampaigns.js:96-107 | the image is that of the first rule (fire/burn, flood/water/typhoon, storm/bagyo, community/support) with a keyword in the content, or the fire image when none matches |
| UseCampaigns.ImageIgnoresCase | frontend/src/hooks/useCampaigns.js:91-93 | lower-casing name and description beforehand does not change the image |
| UseCampaigns.TransformCampaignForCard | frontend/src/hooks/useCampaigns.js:55-83 | a non-empty organization name, name and description are shown as given and a missing or empty one becomes "Organization", "Campaign", "No description available"; a present target and total are shown as given and a missing one becomes 0; goal is the defaulted target; id and dates pass through; the image is CampaignImage |

## Left out

- Floating point: Java `Double` and JavaScript numbers are exact `real`s here. `toFixed` and `toLocaleString` are not modelled, and neither is any price or date formatting.
- Dashboard.RoundedPercent, Dashboard.SuccessRate and AdminService.Growth round the exact ratio to the nearest percent, not its floating-point value. The two can differ: for 23 of 40, `Math.round((23 / 40) * 100)` is 57 in JavaScript, while the model gives 58.
- CampaignService.SaveCampaign: an organization reference whose id is null is treated like no organization. Persisting such a transient organization is left to JPA and is not modelled. A `campaignID` naming no stored campaign is stored under a newly generated id, which is how a merge of a detached entity behaves. Hibernate versions that refuse such a merge are not modelled.
- Campaigns.SortedByKey: the progress-high and progress-low sorts order by each card's `progress` value, which the model takes as given. The raised/goal division behind it, including a zero goal, is floating point.
- Clocks: `Date.now()`, `LocalDateTime.now()` and "days left" take the current time as a parameter. Date strings are not parsed; dates are integers.
- Number parsing: `parseFloat` and `Number(...)` results come in as parameters (`NaN` or a number), not as parsers over strings.
- Text: `String.trim` uses a fixed whitespace set and `toLowerCase` is ASCII only. The email pattern `\S+@\S+\.\S+` is modelled directly, not through a regular-expression engine.
- String lengths: JavaScript's `length` and `slice` count UTF-16 code units, while the model counts characters. This affects Campaigns.TruncateText and the name and password length rules of Register, OrgRegister, UserModal and AddUserModal on text outside the Basic Multilingual Plane.
- Persistence: JPA, transactions and rollback are out of scope. Each service call is one atomic step on `Store`, so the check-then-act race between two concurrent donations from the same wallet is not modelled.
- React rendering and effects are not modelled, nor is the `Math.random` decoration in OrganizationPage/Dashboard.jsx. Network replies are parameters (`Ok`, `NotOk`, `NetworkError`).
- Timers: two timer bodies are methods of their own. TopUpModal.TopUpForm.SimulatedReply is the 1-second reply of TopUpModal.jsx, and AddUserModal.AddUserDialog.AfterSuccess is the success timer of AddUserModal.jsx. Their delays, and their ordering against other events, are not modelled. The remaining timers are left out: TopUpModal's nested `onClose` after 1.5 seconds, AddCampaignModal's timed reset and close, DonateModal's 2-second success callback and close, and the 1.5-second close or success callback of the two registration pages.
- DonateModal.DonateForm.HandleChange: the source clears an error by setting its key to `null`. The model removes the key, so "no error" is "key absent".
- AddCampaignModal.AddCampaignForm.HandleSubmit: whether `onSave` resolves is a parameter. The timed reset of the form and the closing of the dialog after 1.5 seconds are not modelled.
- The `valid` out-parameter of each `HandleSubmit` method is a modelling addition: the source's handlers return nothing. It reports the validation verdict the source computes.
- HTTP controllers other than the user and campaign controllers, and the authentication and security configuration, are not part of this model.

## Findings

| source | as written | input that shows it | evidently intended | confidence | as-written member | corrected member |
|---|---|---|---|---|---|---|
| frontend/src/Register/Register.jsx:5-11 | the page posts the names under `firstName`/`lastName`, while the endpoint reads `first_name`/`last_name` (backend/helpup/src/main/java/com/helpup/contoller/UserController.java:32-33) | any donor registration that passes the page's checks | the snake_case keys the endpoint reads, so that the stored user keeps the names the form required | not executed | Register.AsWrittenLosesNames | Register.EndpointKeysKeepNames |
