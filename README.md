# Peer-to-peer escrow: a verified model of the server-side rules

The application lets two users trade through an escrow. One user creates a transaction with a
counterparty. The buyer funds the escrow through the payment gateway, and the buyer alone
releases it. Either party may dispute an active transaction instead. Around this life cycle sit:

- a wallet with deposits, withdrawals, bank accounts and cards;
- the gateway's webhook;
- reviews that set each user's trust score;
- messages between the two parties;
- a notification list per user;
- account management.

On the client side there is the withdraw form, the transaction table, and the middleware that
gates the dashboard.

The model keeps every collection of the document store in one object, `Store.Database`:

- `users` is a map from user id to user record. The bank accounts, cards and notifications
  live inside each record.
- Transactions, disputes, messages, reviews, wallet entries and withdrawal requests are
  sequences that only grow, and an id is a position.

Each server action is a method over that object. It names the fields it may change and keeps
the invariant `Database.Valid()`:

- emails are unique;
- trust scores are on the 1-to-5 scale;
- each user has at most one default bank account and one default card;
- notification ids are unique per user;
- a transaction's status agrees with its escrow funding;
- every disputed transaction has an open dispute;
- messages and disputes name existing transactions;
- reviews are well formed;
- every withdrawal request points at its wallet entry.

Every method states its error answers in the order the source checks them. It states the exact
new state on success and that nothing changes on failure.

Queries, the form's checks, the table and the middleware are functions, each with lemmas about
what it returns.

Everything outside the code becomes a parameter:

- the signed-in user, `Option<Session>`, where `None` means nobody is signed in;
- the clock reading `now`;
- fresh ids;
- what the payment gateway reports (a payment intent, a card registration reply, a signature
  verdict);
- whether a password matches its hash;
- whether a token verifies.

## Model

| member | source | states |
|---|---|---|
| Models.ParseStatus | peer-to-peer/src/lib/models.ts:46 | only the five status names are statuses, and each reads back to the status stored under that name |
| Models.StatusRoundTrip | peer-to-peer/src/lib/models.ts:46 | every transaction status is stored under its own name and read back as itself |
| Text.BlankIffTrimEmpty | peer-to-peer/src/lib/actions/message-actions.ts:92 | `!s.trim()` holds exactly when every character is JavaScript whitespace |
| Text.SpaceSeparatorsAreBlank | peer-to-peer/src/lib/actions/dispute-actions.ts:141 | an ideographic space, or a no-break space with an em space, is blank, and a space followed by a letter is not |
| Text.LastChars | peer-to-peer/src/lib/actions/payment-actions.ts:122 | `slice(-n)` keeps the last n characters, or all when fewer, and they are a suffix of the string |
| Seqs.Filter | peer-to-peer/src/lib/actions/message-actions.ts:40 | the query result holds exactly the documents that match, and no more entries than the collection |
| Seqs.FilterConcat | peer-to-peer/src/lib/actions/message-actions.ts:40 | a query keeps stored order: filtering a concatenation is concatenating the filtered parts |
| Seqs.Count | peer-to-peer/src/lib/actions/message-actions.ts:70-73 | `countDocuments` is the number of matching documents |
| Seqs.CountIsPositions | peer-to-peer/src/lib/actions/message-actions.ts:70-73 | `countDocuments` is the size of the set of positions of matching documents |
| Seqs.FilterMultiplicity | peer-to-peer/src/lib/actions/message-actions.ts:40 | a query returns each matching document as often as it is stored, and no other |
| Seqs.CountZeroIff | peer-to-peer/src/lib/actions/user-actions.ts:156-164 | a count is zero exactly when no document matches |
| Seqs.CountUpdate | peer-to-peer/src/lib/actions/message-actions.ts:168-174 | updating one document changes a count by what its old and new versions contribute |
| Seqs.SortBy | peer-to-peer/src/lib/actions/message-actions.ts:41 | a sort returns a permutation of its input ordered by the key |
| Seqs.SortByMembers | peer-to-peer/src/lib/actions/message-actions.ts:41 | sorting neither adds nor drops a document |
| Seqs.Take | peer-to-peer/src/lib/actions/payment-actions.ts:367 | `limit(n)` returns the first n documents, or all of them when there are fewer |
| Seqs.TakeKeepsSmallestKeys | peer-to-peer/src/lib/actions/payment-actions.ts:366-367 | after a sort, a document the limit cuts off ranks no earlier than any it keeps |
| Store.Credit | peer-to-peer/src/lib/actions/payment-actions.ts:218 | `$inc` on the balance changes user u's balance by exactly the amount and nothing else; an unknown id changes nothing |
| Store.CreditKeepsUsersValid | peer-to-peer/src/lib/actions/payment-actions.ts:290 | a balance change keeps emails unique and user records well formed |
| Store.ReplaceUserKeepsUsersValid | peer-to-peer/src/lib/actions/user-actions.ts:106-114 | rewriting a user's record without changing its email keeps the users valid |
| Store.AppendWithdrawalKeepsBacked | peer-to-peer/src/lib/actions/payment-actions.ts:304-319 | a withdrawal entry recorded together with a request that points at it keeps every request backed by an entry of the same user and amount |
| Store.TransactionsEvolveKeepsReferences | peer-to-peer/src/lib/actions/transaction-actions.ts:352-368 | reviews and messages stay well formed when transactions only change status and funding |
| AuthActions.NewUser | peer-to-peer/src/lib/actions/auth-actions.ts:43-52 | a new user has balance 0, trust score 5 and no bank accounts, and carries no card list and no notification list at all |
| AuthActions.SignUp | peer-to-peer/src/lib/actions/auth-actions.ts:20-86 | all four fields are required and the email must be new, with nothing stored otherwise; success stores exactly the new user under the fresh id |
| AuthActions.Login | peer-to-peer/src/lib/actions/auth-actions.ts:88-149 | success exactly when a user has that email and the password matches its hash; an unknown email and a wrong password get the same error |
| AuthActions.GetCurrentUser | peer-to-peer/src/lib/actions/auth-actions.ts:181-216 | a session exists exactly when a token is present, verifies, and names a stored user, and it carries that user's email, name and role |
| AuthActions.GetCurrentUserIsCurrent | peer-to-peer/src/lib/actions/auth-actions.ts:198-210 | every session handed out agrees with the stored record |
| AuthActions.UpdateUserWallet | peer-to-peer/src/lib/actions/auth-actions.ts:155-179 | errors for a missing id, a non-number amount or an unknown user with no change; otherwise the balance becomes old balance plus amount and is returned, with no sign check |
| TransactionActions.NewTransaction | peer-to-peer/src/lib/actions/transaction-actions.ts:48-92 | a new transaction is pending and unfunded and has one "Transaction created" timeline entry |
| TransactionActions.NewTransactionRoles | peer-to-peer/src/lib/actions/transaction-actions.ts:54-77 | role "buyer" makes the creator the buyer, role "seller" makes the creator the seller, and any other role makes the counterparty both buyer and seller |
| TransactionActions.MarkFunded | peer-to-peer/src/lib/actions/transaction-actions.ts:261-266 | funding makes the transaction active and funded with the escrow id, and changes nothing of the deal |
| TransactionActions.MarkCompleted | peer-to-peer/src/lib/actions/transaction-actions.ts:355-359 | release makes a funded transaction completed at `now`, keeping its escrow |
| TransactionActions.MarkDisputed | peer-to-peer/src/lib/actions/transaction-actions.ts:441-444 | a dispute makes an active transaction disputed, still funded |
| TransactionActions.CreateKeepsLedger | peer-to-peer/src/lib/actions/transaction-actions.ts:94 | inserting a pending transaction keeps the escrow ledger consistent |
| TransactionActions.FundKeepsLedger | peer-to-peer/src/lib/actions/transaction-actions.ts:246-266 | funding an unfunded transaction keeps the ledger consistent, and such a transaction was pending or cancelled |
| TransactionActions.ReleaseKeepsLedger | peer-to-peer/src/lib/actions/transaction-actions.ts:331-359 | completing a funded active transaction keeps the ledger consistent |
| TransactionActions.DisputeKeepsLedger | peer-to-peer/src/lib/actions/transaction-actions.ts:424-444 | disputing an active transaction together with inserting its open dispute keeps the ledger consistent |
| TransactionActions.CreateTransaction | peer-to-peer/src/lib/actions/transaction-actions.ts:15-125 | in order: signed in, all fields given with amount neither 0 nor NaN, counterparty found by email; any failure inserts nothing; success appends exactly the new pending transaction and returns its id |
| TransactionActions.FundEscrowCheck | peer-to-peer/src/lib/actions/transaction-actions.ts:224-255 | success exactly when the caller is the buyer, the escrow is unfunded and the gateway reports the payment succeeded; otherwise the answer of the first check that fails |
| TransactionActions.FundEscrow | peer-to-peer/src/lib/actions/transaction-actions.ts:224-304 | in order: caller is the buyer, not yet funded, gateway reports success; any failure changes nothing; success marks the transaction funded and active whatever its status was |
| TransactionActions.FundEscrowAsWritten | peer-to-peer/src/lib/actions/transaction-actions.ts:256-302 | as written, never a success: every check answers as in FundEscrow, and a buyer whose payment succeeded gets the store's refusal of `{ $set, push }` with the transaction left unfunded |
| TransactionActions.ReleaseEscrowCheck | peer-to-peer/src/lib/actions/transaction-actions.ts:306-350 | success exactly when the caller is the buyer of a funded, active transaction; otherwise the answer of the first check that fails, in source order |
| TransactionActions.ReleaseEscrowFunds | peer-to-peer/src/lib/actions/transaction-actions.ts:306-396 | in order: participant, funded, active, buyer; any failure changes nothing; success completes exactly that transaction |
| TransactionActions.ReleaseEscrowFundsAsWritten | peer-to-peer/src/lib/actions/transaction-actions.ts:351-395 | as written, never a success: the buyer of a funded active transaction gets the store's refusal and the transaction is never completed |
| TransactionActions.CreateDisputeCheck | peer-to-peer/src/lib/actions/transaction-actions.ts:398-427 | success exactly when the caller is a party to an active transaction; otherwise the answer of the first check that fails |
| TransactionActions.CreateDispute | peer-to-peer/src/lib/actions/transaction-actions.ts:398-498 | a participant of an active transaction appends an open dispute raised by the caller, and the transaction becomes disputed; otherwise nothing changes; the answer carries only the success, not the dispute's id |
| TransactionActions.DisputedCannotBeDisputedAgain | peer-to-peer/src/lib/actions/transaction-actions.ts:423-425 | once the intended update has made a transaction disputed, a second dispute about it is refused as not active |
| TransactionActions.AppendDisputeKeepsLedger | peer-to-peer/src/lib/actions/transaction-actions.ts:429-435 | inserting a dispute about a stored transaction keeps the escrow ledger consistent |
| TransactionActions.CreateDisputeAsWritten | peer-to-peer/src/lib/actions/transaction-actions.ts:428-497 | as written, never a success: the open dispute is inserted, the refused update leaves the transaction active, and the caller gets the store's error; failed checks insert nothing |
| TransactionActions.DisputeTwiceAsWritten | peer-to-peer/src/lib/actions/transaction-actions.ts:428-453 | as written, disputing the same active transaction twice answers the store's error both times and leaves two open disputes about a transaction that is still active |
| TransactionActions.QueryListsNewestFirst | peer-to-peer/src/lib/actions/transaction-actions.ts:139-152 | the query returns each of the user's transactions (only active funded ones under "escrow") as often as it is stored and nothing else, newest first |
| TransactionActions.GetTransactions | peer-to-peer/src/lib/actions/transaction-actions.ts:127-173 | signed in only; exactly the caller's transactions, each as often as it is stored, only active funded ones under "escrow", newest first |
| PaymentActions.CreateEscrow | peer-to-peer/src/lib/actions/payment-actions.ts:50-71 | an escrow is opened exactly when the gateway reports the intent succeeded |
| PaymentActions.ReleaseEscrow | peer-to-peer/src/lib/actions/payment-actions.ts:73-79 | release always reports success |
| PaymentActions.Mask | peer-to-peer/src/lib/actions/payment-actions.ts:122-131 | a stored number is "****" followed by at most four characters, which end the original number |
| PaymentActions.AddEntry | peer-to-peer/src/lib/actions/payment-actions.ts:136-147 | a default entry first clears every existing default; the entry is then appended |
| PaymentActions.AddEntryKeepsOneDefault | peer-to-peer/src/lib/actions/payment-actions.ts:137-147 | after adding, at most one entry is default, and a new default entry is the only one |
| PaymentActions.AddBankAccount | peer-to-peer/src/lib/actions/payment-actions.ts:96-155 | all four fields are required; success appends the account with masked numbers under the default rule and changes nothing else |
| PaymentActions.StoreCard | peer-to-peer/src/lib/actions/payment-actions.ts:460-469 | a default card for a user with no card list fails, because `$[]` needs an existing array, and changes nothing; otherwise the card is added under the default rule, `$push` creating the list when it is missing |
| PaymentActions.AddCreditCard | peer-to-peer/src/lib/actions/payment-actions.ts:400-482 | all five fields are required; a declined or failed registration is an error with no change; success stores the last four digits and the brand ("unknown" when none is reported); a first card marked default fails with no change |
| PaymentActions.AddFundsToWallet | peer-to-peer/src/lib/actions/payment-actions.ts:200-258 | a non-positive amount changes nothing; otherwise the balance rises by exactly the amount and one completed deposit is recorded |
| PaymentActions.WithdrawFromWallet | peer-to-peer/src/lib/actions/payment-actions.ts:260-349 | in order: signed in, positive amount, user found, funds sufficient; failure changes nothing; success lowers the balance by exactly the amount (staying non-negative) and records one processing withdrawal and one request pointing at it |
| PaymentActions.RecordWithdrawal | peer-to-peer/src/lib/actions/payment-actions.ts:289-319 | the balance drops by the amount, and the entry and the request pointing at it are appended |
| PaymentActions.LatestEntriesAreNewest | peer-to-peer/src/lib/actions/payment-actions.ts:364-368 | the user's own stored entries, ten of them or all when fewer, newest first, and any entry left out is no newer than those kept |
| PaymentActions.GetWalletTransactions | peer-to-peer/src/lib/actions/payment-actions.ts:351-382 | signed in only; the caller's ten newest stored wallet entries, or all of them when fewer, newest first |
| PaymentActions.ProcessStripePayment | peer-to-peer/src/lib/actions/payment-actions.ts:529-559 | in order: signed in, intent retrieved, succeeded, created by this caller's wallet top-up, a positive amount; each failure answers its own text and changes nothing; success credits cents/100 and records one completed card deposit |
| StripeWebhook.HandlePaymentIntentSucceeded | peer-to-peer/src/app/api/webhook/stripe/route.ts:53-107 | a wallet-funding intent with a user id credits that user with cents/100 and records one completed deposit; any other intent changes nothing |
| StripeWebhook.Post | peer-to-peer/src/app/api/webhook/stripe/route.ts:19-51 | a bad signature answers 400 and runs no handler; a succeeded wallet top-up with an owner credits that owner with cents/100 and appends exactly one completed card deposit; every other event, including any other succeeded intent, changes nothing and still answers received |
| DisputeActions.GetDisputes | peer-to-peer/src/lib/actions/dispute-actions.ts:13-68 | exactly the disputes the caller raised, each as often as it is stored, in stored order, since the buyer and seller conditions name fields a dispute does not have |
| DisputeActions.GetDisputesInvolving | peer-to-peer/src/lib/actions/dispute-actions.ts:23-31 | exactly the disputes the caller raised or whose transaction has the caller as buyer or seller, each as often as it is stored, in stored order |
| DisputeActions.InvolvingExtendsRaised | peer-to-peer/src/lib/actions/dispute-actions.ts:23-31 | the intended query keeps every dispute the written one returns, and adds exactly those raised by others about the caller's transactions |
| DisputeActions.CounterpartyMissesDispute | peer-to-peer/src/lib/actions/dispute-actions.ts:23-31 | the seller of a transaction the buyer disputed gets no dispute from the written query and that dispute from the intended one |
| DisputeActions.GetDisputeById | peer-to-peer/src/lib/actions/dispute-actions.ts:70-132 | errors when the dispute or its transaction is missing; access only for the buyer, the seller or the raiser |
| DisputeActions.NotifiedParty | peer-to-peer/src/lib/actions/dispute-actions.ts:169-186 | the raiser is notified unless the raiser responds; then the respondent, if any, is notified |
| DisputeActions.ResponseMessage | peer-to-peer/src/lib/actions/dispute-actions.ts:158-166 | a response is an unread dispute message in the dispute's transaction, sent by the responder |
| DisputeActions.RespondToDispute | peer-to-peer/src/lib/actions/dispute-actions.ts:134-194 | a blank response or an unknown dispute appends nothing; otherwise exactly one response message is appended |
| DisputeActions.OutsiderCanRespond | peer-to-peer/src/lib/actions/dispute-actions.ts:145-166 | a caller outside the dispute gets a message appended to a transaction they take no part in |
| DisputeActions.RespondToDisputeChecked | peer-to-peer/src/lib/actions/dispute-actions.ts:98-105 | with the access rule of the dispute lookup added, only the buyer, the seller or the raiser can respond |
| ReviewActions.SumOfRatingsBounds | peer-to-peer/src/lib/actions/review-actions.ts:93 | ratings from 1 to 5 sum to between n and 5n |
| ReviewActions.MeanRatingInScale | peer-to-peer/src/lib/actions/review-actions.ts:93-94 | the mean of ratings from 1 to 5 lies in [1, 5] |
| ReviewActions.ReviewsOf | peer-to-peer/src/lib/actions/review-actions.ts:86-90 | exactly the reviews about the user |
| ReviewActions.AppendReviewKeepsWellFormed | peer-to-peer/src/lib/actions/review-actions.ts:31-82 | a review that passed the checks keeps the rule of one review per reviewer and transaction, and every other review rule |
| ReviewActions.TrustScoreInScale | peer-to-peer/src/lib/actions/review-actions.ts:86-97 | the trust score a review produces lies in [1, 5] |
| ReviewActions.Rescored | peer-to-peer/src/lib/actions/review-actions.ts:97 | only the reviewee's record changes |
| ReviewActions.StoreReview | peer-to-peer/src/lib/actions/review-actions.ts:82-97 | the review is appended and the reviewee's score becomes the mean of all their ratings |
| ReviewActions.Rescore | peer-to-peer/src/lib/actions/review-actions.ts:86-97 | the reviewee's score becomes the mean of all their ratings, keeping every invariant |
| ReviewActions.SubmitReview | peer-to-peer/src/lib/actions/review-actions.ts:14-124 | in order: rating in 1..5, completed transaction of the caller, not reviewed yet, reviewee a party; any failure changes nothing; success appends the review and rescores the reviewee |
| MessageActions.GetMessages | peer-to-peer/src/lib/actions/message-actions.ts:14-57 | participants only; exactly the transaction's messages, oldest first |
| MessageActions.GetUnreadMessages | peer-to-peer/src/lib/actions/message-actions.ts:59-83 | the number of stored messages that are unread and not sent by the caller; zero exactly when there are none |
| MessageActions.UnreadCountIncludesStrangers | peer-to-peer/src/lib/actions/message-actions.ts:70-73 | a user in no transaction is counted a message between two others |
| MessageActions.GetUnreadMessagesOwn | peer-to-peer/src/lib/actions/message-actions.ts:70-73 | the number of stored messages in the caller's transactions that are unread and not sent by the caller; zero exactly when there are none |
| MessageActions.OwnCountIgnoresStrangers | peer-to-peer/src/lib/actions/message-actions.ts:70-73 | a message in someone else's transaction does not change the restricted count, and one in the caller's changes both counts alike |
| MessageActions.Recipient | peer-to-peer/src/lib/actions/message-actions.ts:126-128 | the recipient is the seller when the buyer sends, otherwise the buyer; a party, and not the sender |
| MessageActions.SendMessage | peer-to-peer/src/lib/actions/message-actions.ts:85-156 | a blank message or a non-participant appends nothing; otherwise one unread message from the caller is appended and the counterparty is notified |
| MessageActions.MarkedRead | peer-to-peer/src/lib/actions/message-actions.ts:168-174 | only that message changes, and it becomes read only when someone else sent it |
| MessageActions.MarkedReadIdempotent | peer-to-peer/src/lib/actions/message-actions.ts:168-174 | marking twice is marking once |
| MessageActions.MarkReadLowersUnread | peer-to-peer/src/lib/actions/message-actions.ts:168-174 | the reader's unread count drops by one when the message was unread for them, and nobody's count rises |
| MessageActions.MarkMessageAsRead | peer-to-peer/src/lib/actions/message-actions.ts:158-181 | any signed-in caller succeeds, and the store changes only by that update |
| NotificationActions.NewNotification | peer-to-peer/src/lib/actions/notification-actions.ts:13-40 | a new notification is unread, and its type defaults to "info" |
| NotificationActions.SetNotifications | peer-to-peer/src/lib/actions/notification-actions.ts:43 | only that user's list is replaced; an unknown user changes nothing |
| NotificationActions.CreateNotification | peer-to-peer/src/lib/actions/notification-actions.ts:13-51 | the new notification is appended to that user's list only, the list being created when missing, and the answer is a success |
| NotificationActions.CreateNotificationAsWritten | peer-to-peer/src/lib/actions/notification-actions.ts:42-51 | as written, the driver refuses `{ push: … }`: nothing is stored and the answer is the driver's error |
| NotificationActions.GetNotifications | peer-to-peer/src/lib/actions/notification-actions.ts:53-89 | the caller's notifications, newest first, or an empty list when there is no record or no list |
| NotificationActions.MarkFirst | peer-to-peer/src/lib/actions/notification-actions.ts:101-107 | the first entry with the id becomes read, and nothing else changes |
| NotificationActions.MarkFirstMarksTheOne | peer-to-peer/src/lib/actions/notification-actions.ts:101-107 | with unique ids, exactly the entry with that id becomes read |
| NotificationActions.MarkNotificationAsRead | peer-to-peer/src/lib/actions/notification-actions.ts:91-115 | only the caller's own list changes, the first entry with the id becoming read; with no list nothing changes |
| NotificationActions.MarkAll | peer-to-peer/src/lib/actions/notification-actions.ts:127-130 | every entry becomes read and nothing else about it changes |
| NotificationActions.MarkAllIdempotent | peer-to-peer/src/lib/actions/notification-actions.ts:127-130 | after marking all nothing is unread, and doing it again changes nothing |
| NotificationActions.MarkAllNotificationsAsRead | peer-to-peer/src/lib/actions/notification-actions.ts:117-138 | only the caller's list changes, and all of it becomes read; a stored caller with no list gets the store's error with no change, because `$[]` needs an existing array |
| NotificationActions.Without | peer-to-peer/src/lib/actions/notification-actions.ts:150-153 | exactly the entries with another id remain |
| NotificationActions.FilterKeepsIdsUnique | peer-to-peer/src/lib/actions/notification-actions.ts:150-153 | removing entries keeps ids unique |
| NotificationActions.DeleteNotification | peer-to-peer/src/lib/actions/notification-actions.ts:140-161 | the entries with the id leave the caller's list, and nothing else changes; with no list nothing changes |
| NotificationActions.DeleteNotificationAsWritten | peer-to-peer/src/lib/actions/notification-actions.ts:140-161 | as written, the driver refuses `{ pull: … }`: every signed-in caller gets the driver's error and nothing is deleted |
| UserActions.UpdateUserProfile | peer-to-peer/src/lib/actions/user-actions.ts:13-60 | name and email are required, and another user's email is refused with no update; success sets exactly the caller's name and email |
| UserActions.PasswordFormError | peer-to-peer/src/lib/actions/user-actions.ts:73-83 | in order: all fields present, new equals confirmation, at least 8 long |
| UserActions.ChangePassword | peer-to-peer/src/lib/actions/user-actions.ts:62-121 | a wrong current password or a failed check leaves the hash unchanged; success replaces only the caller's hash |
| UserActions.NoBlockingIffSettled | peer-to-peer/src/lib/actions/user-actions.ts:156-162 | the count is zero exactly when all of the user's transactions are completed or cancelled |
| UserActions.DeleteAccount | peer-to-peer/src/lib/actions/user-actions.ts:123-178 | a password and "DELETE" are required, then a matching password and no open transaction; success removes exactly that user |
| WithdrawFormModel.DotIndex | peer-to-peer/src/components/withdraw-form.tsx:35 | the position of the first dot |
| WithdrawFormModel.ScanAfterDot | peer-to-peer/src/components/withdraw-form.tsx:35 | after the dot, the regular expression accepts at most two digits |
| WithdrawFormModel.ScanMatchesPattern | peer-to-peer/src/components/withdraw-form.tsx:35 | the regular expression accepts exactly digits, an optional dot, then at most two digits |
| WithdrawFormModel.DigitsValueBelow | peer-to-peer/src/components/withdraw-form.tsx:45 | k digits make a number below 10^k |
| WithdrawFormModel.ParseAmount | peer-to-peer/src/components/withdraw-form.tsx:45 | `parseFloat` is NaN exactly for "" and "."; otherwise it lies between the integer part and the next integer |
| WithdrawFormModel.DotPassesFilterButIsNoAmount | peer-to-peer/src/components/withdraw-form.tsx:35-51 | "." passes the input filter and is rejected as an invalid amount |
| WithdrawFormModel.FormError | peer-to-peer/src/components/withdraw-form.tsx:45-63 | in order: a valid positive amount, within the balance, an account selected |
| WithdrawFormModel.WithdrawForm.constructor | peer-to-peer/src/components/withdraw-form.tsx:24-30 | the first account is selected, or "" when there is none |
| WithdrawFormModel.WithdrawForm.HandleAmountChange | peer-to-peer/src/components/withdraw-form.tsx:32-38 | input matching the pattern replaces the amount; any other input leaves it unchanged |
| WithdrawFormModel.WithdrawForm.SelectAccount | peer-to-peer/src/components/withdraw-form.tsx:120 | the chosen account becomes the selected one |
| WithdrawFormModel.WithdrawForm.HandleWithdraw | peer-to-peer/src/components/withdraw-form.tsx:40-81 | the server is called exactly when every check passes; the form shows its error or the server's answer and stops loading; on success the balance drops by the parsed amount and exactly one processing bank withdrawal entry and one request pointing at it are appended; otherwise nothing changes |
| WithdrawFormModel.WithdrawForm.Submit | peer-to-peer/src/components/withdraw-form.tsx:65-80 | once the checks pass, a bank withdrawal of the parsed amount to the selected account is requested; success is shown exactly when the caller holds that much, and then the balance drops by that amount and exactly one processing withdrawal entry and one request pointing at it are appended; on an error nothing changes |
| WithdrawFormModel.EnabledMeansChecksPass | peer-to-peer/src/components/withdraw-form.tsx:157-164 | an enabled submit button means every check of the handler passes |
| TransactionsListView.Filtered | peer-to-peer/src/components/transactions-list.tsx:16-19 | "escrow" keeps exactly the active transactions; any other filter keeps all |
| TransactionsListView.SliceFromStart | peer-to-peer/src/components/transactions-list.tsx:23 | `slice(0, limit)` is a prefix, cut from the end for a negative limit |
| TransactionsListView.Visible | peer-to-peer/src/components/transactions-list.tsx:14-24 | the rows are a prefix of the filtered list in order; a positive limit keeps the first `limit` rows or all when fewer, a negative one drops that many rows from the end; no limit or 0 keeps all |
| TransactionsListView.EmptyNoticeIff | peer-to-peer/src/components/transactions-list.tsx:83-89 | the notice shows exactly when nothing passes the filter |
| TransactionsListView.EmptyNotice | peer-to-peer/src/components/transactions-list.tsx:83-89 | "No transactions found" is shown exactly when there are no rows |
| TransactionsListView.EscrowFilterKeepsEscrowQuery | peer-to-peer/src/components/transactions-list.tsx:17-19 | on the result of the escrow query the table's own filter removes nothing |
| TransactionsListView.CounterpartyLabel | peer-to-peer/src/components/transactions-list.tsx:97-101 | "System" when buyer and seller are the same user, else the seller's email when the names agree, else the seller's name |
| TransactionsListView.SellerSeesOwnName | peer-to-peer/src/components/transactions-list.tsx:97-101 | the seller sees their own name as counterparty |
| TransactionsListView.CounterpartyLabelFor | peer-to-peer/src/components/transactions-list.tsx:97-101 | the label names the party the viewer is not |
| Middleware.Gate | peer-to-peer/middleware.ts:5-39 | non-dashboard paths pass; no token redirects to /login; a valid token passes; an invalid one redirects and deletes the cookie |
| Middleware.ResetIsNotDashboard | peer-to-peer/middleware.ts:9 | no path starts with both "/reset-password" and "/dashboard" |
| Middleware.Route | peer-to-peer/middleware.ts:41-43 | the gate runs only on paths under /dashboard and /reset-password |
| Middleware.DashboardNeedsValidToken | peer-to-peer/middleware.ts:9-43 | a dashboard page passes exactly with a token that verifies, and a reset-password page always passes |

## Left out

- Stripe, JSON Web Tokens, bcrypt and e-mail are outside the model. Their verdicts are parameters.
- Cookies are outside the model. A session is a parameter.
- Clocks and generated ids are parameters.
- Logging, `revalidatePath` and client-side refreshes are left out.
- Concurrency and atomicity are left out. Each action is one sequential step, although the source reads and then writes without a transaction.
- The `createNotification` calls that other actions make as side effects are left out. The recipient is computed where the source does so (`MessageActions.SendMessage`).
- The catch branches are left out. These are the "Failed to ..." answers of a store or gateway call that throws. The exceptions are the refused updates, whose text the catch passes on as `error.message`, and the failed card update of `PaymentActions.AddCreditCard`. The retrieval failure of a payment intent is kept as `intent == None`.
- `getTransaction`, `getBankAccounts`, `getCreditCards`, `getWithdrawalRequests`, `getReviewsForUser` and `signOut` are left out. Each is a lookup or a cookie deletion with no rule beyond the ones modelled.
- `createPaymentIntent` is left out: it is a gateway call with a floating-point conversion to cents.
- `handlePaymentIntentFailed` only sends a notification. `StripeWebhook.Post` states that it changes no balance.
- The webhook's 500 answer and the middleware's outer catch are exception paths and are left out.
- TransactionActions.FundEscrow, TransactionActions.ReleaseEscrowFunds, TransactionActions.CreateDispute: these model the intended `$set` update. As written, the store refuses `{ $set: …, push: … }`; the members named `…AsWritten` model that, and the Findings list it. The timeline entries the `push` meant to add are not modelled.
- NotificationActions.CreateNotification, NotificationActions.DeleteNotification: these model the intended `$push` and `$pull`. As written, the driver refuses `{ push: … }` and `{ pull: … }`; `CreateNotificationAsWritten` and `DeleteNotificationAsWritten` model that, and the Findings list it.
- The store's error texts `UnknownModifierPush`, `AtomicOperatorsRequired` and `ArrayPathMissing` are worded as MongoDB 5.0 and later and the Node.js driver word them; other versions word them differently.
- NotificationActions.CreateNotification: the source inserts no `_id` in the entry. The model gives every entry a fresh id (a precondition), so that marking and deleting by id can find it.
- `updatedAt` on user records is not modelled. On transactions it is kept.
- AuthActions.UpdateUserWallet: a record with no `walletBalance` field, which the source treats as 0, is not modelled; every record has a balance.
- UserActions.ChangePassword: the length check counts characters; JavaScript counts UTF-16 code units, which differs for characters outside the Basic Multilingual Plane.
- TransactionActions.CreateTransaction: `amount` is `None` for a value that `parseFloat` turns into NaN.
- PaymentActions.WithdrawFromWallet, PaymentActions.AddFundsToWallet, AuthActions.UpdateUserWallet, ReviewActions.SubmitReview: floating point is not modelled, and money and ratings are `real`. A NaN amount or rating passes the source's comparisons (`amount <= 0`, `walletBalance < amount`, `rating < 1 || rating > 5`), so a balance or trust score can become NaN; in the model every amount is a number, so a balance stays non-negative and a score stays in 1 to 5.
- AuthActions.SignUp: the source stores any non-empty role string; the model's `Role` holds only "buyer", "seller" and "admin", so another role string cannot be expressed.
- TransactionActions.CreateTransaction: the source stores any payment method string; the model's `PaymentMethodType` holds only "bank", "card" and "wallet", so another method cannot be expressed.
- WithdrawFormModel.ParseAmount: only inputs that pass the form's filter are parsed, because the amount field never holds anything else.
- WithdrawFormModel.WithdrawForm.HandleWithdraw: the loading state while the request is pending, and the cleared error and success before it, are not modelled; only the state after the handler is. The two-second `onSuccess` callback is left out. So is the fallback text "Withdrawal initiated successfully", which is never shown because the server always answers with a message.
- `Credit` is applied even when the user record is missing, as `$inc` on a missing document does. A deposit entry is still recorded in that case (`PaymentActions.AddFundsToWallet`).
- The source's behaviour is followed, not improved, in these cases:
  - `fundEscrow` does not check the status, amount or owner of the intent, so a cancelled unfunded transaction becomes active;
  - `createTransaction` accepts negative amounts and a counterparty who is the creator;
  - the reviewer may review themselves;
  - `markMessageAsRead` does not check participation.
- React rendering, the analytics figures, and the button gating that only mirrors server rules are left out. So are the pages.

## Findings

| source | as written | input that shows it | evidently intended | confidence | as-written member | corrected member |
|---|---|---|---|---|---|---|
| peer-to-peer/src/lib/actions/dispute-actions.ts:134-166 | any signed-in user can answer any dispute; the access rule of `getDisputeById` is not applied | a user who neither raised the dispute nor takes part in its transaction responds to it | only the buyer, the seller or the raiser may respond | not executed | DisputeActions.OutsiderCanRespond | DisputeActions.RespondToDisputeChecked |
| peer-to-peer/src/lib/actions/message-actions.ts:70-73 | the unread count includes every unread message in the store that the caller did not send, from any transaction | user 3, in no transaction, is counted the message user 1 sent user 2 | count only messages in the caller's own transactions | not executed | MessageActions.UnreadCountIncludesStrangers | MessageActions.GetUnreadMessagesOwn |
| peer-to-peer/src/components/transactions-list.tsx:97-101 | the counterparty column always shows the seller | the seller of a transaction with buyer "Ann" sees "Bob", their own name | show the party the viewer is not | not executed | TransactionsListView.SellerSeesOwnName | TransactionsListView.CounterpartyLabelFor |
| peer-to-peer/src/lib/actions/dispute-actions.ts:23-31 | disputes are queried by `transaction.buyer.userId` and `transaction.seller.userId`, fields a stored dispute does not have, so only the caller's own disputes are found | user 1 buys from user 2 and disputes the transaction; user 2 gets no disputes | also return the disputes about transactions the caller is buyer or seller of | not executed | DisputeActions.CounterpartyMissesDispute | DisputeActions.GetDisputesInvolving |
| peer-to-peer/src/lib/actions/transaction-actions.ts:257-275 | the update `{ $set: …, push: … }` is refused, so `fundEscrow` answers the store's error after the gateway took the payment, and the transaction stays unfunded | the buyer of an unfunded transaction with a succeeded payment intent | mark the transaction funded and active and append the timeline entry with `$push` | not executed | TransactionActions.FundEscrowAsWritten | TransactionActions.FundEscrow |
| peer-to-peer/src/lib/actions/transaction-actions.ts:351-369 | the update `{ $set: …, push: … }` is refused, so no transaction is ever completed | the buyer of a funded active transaction releases it | complete the transaction and append the timeline entry with `$push` | not executed | TransactionActions.ReleaseEscrowFundsAsWritten | TransactionActions.ReleaseEscrowFunds |
| peer-to-peer/src/lib/actions/transaction-actions.ts:429-453 | the dispute is inserted, then the update `{ $set: …, push: … }` is refused: the open dispute stays, the transaction stays active, the caller is told it failed, and can dispute again | a party disputes the same active transaction twice | mark the transaction disputed, so that it cannot be disputed again | not executed | TransactionActions.DisputeTwiceAsWritten | TransactionActions.CreateDispute |
| peer-to-peer/src/lib/actions/notification-actions.ts:43 | the update `{ push: … }` has no operator and is refused, so no notification is ever stored and the answer is an error | any call | append the notification with `$push` | not executed | NotificationActions.CreateNotificationAsWritten | NotificationActions.CreateNotification |
| peer-to-peer/src/lib/actions/notification-actions.ts:150-153 | the update `{ pull: … }` has no operator and is refused, so every signed-in caller gets an error and nothing is deleted | a signed-in caller deletes a notification they hold | remove it with `$pull` | not executed | NotificationActions.DeleteNotificationAsWritten | NotificationActions.DeleteNotification |
