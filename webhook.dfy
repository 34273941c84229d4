/** The payment gateway's webhook: a signed event about a payment intent, dispatched on its type. */
module StripeWebhook {
  import opened Wrappers
  import opened Models
  import opened Store
  import opened PaymentActions

  /** A verified event: its type and the payment intent it is about. */
  datatype Event = Event(kind: string, intent: PaymentIntent)

  /** The HTTP answer: status 400 for a bad signature, 200 with `received` otherwise. */
  datatype Response = Response(status: nat, received: bool)

  const Succeeded := "payment_intent.succeeded"
  const PaymentFailed := "payment_intent.payment_failed"

  /** `handlePaymentIntentSucceeded`: a wallet top-up with a user id in its metadata credits that
      user with the intent's amount and records one completed card deposit; any other intent
      changes nothing. */
  method HandlePaymentIntentSucceeded(db: Database, intent: PaymentIntent, now: Time)
    requires db.Valid()
    modifies db`users, db`walletEntries
    ensures db.Valid()
    ensures intent.purpose != WalletFunding || intent.ownerId.None? ==>
              db.users == old(db.users) && db.walletEntries == old(db.walletEntries)
    ensures intent.purpose == WalletFunding && intent.ownerId.Some? ==>
              var u := intent.ownerId.value;
              var amount := CentsToAmount(intent.amountCents);
              && db.users == Credit(old(db.users), u, amount)
              && db.walletEntries == old(db.walletEntries) +
                   [WalletEntry(u, amount, Deposit, "card", intent.paymentMethodId, EntryCompleted,
                                "Wallet funding via credit card", now)]
  {
    if intent.purpose == WalletFunding {
      if intent.ownerId.None? {
        return;
      }
      var u := intent.ownerId.value;
      var amount := CentsToAmount(intent.amountCents);
      db.users := Credit(db.users, u, amount);
      db.walletEntries := db.walletEntries +
        [WalletEntry(u, amount, Deposit, "card", intent.paymentMethodId, EntryCompleted,
                     "Wallet funding via credit card", now)];
    }
  }

  /** `POST`: an event whose signature does not verify is refused with 400 and runs no handler;
      a succeeded intent runs its handler; a failed intent only notifies its owner, so it changes
      no balance and no ledger entry; every other event type is acknowledged and ignored. */
  method Post(db: Database, signatureValid: bool, event: Event, now: Time) returns (resp: Response)
    requires db.Valid()
    modifies db`users, db`walletEntries
    ensures db.Valid()
    ensures !signatureValid ==> resp == Response(400, false)
    ensures signatureValid ==> resp == Response(200, true)
    ensures !signatureValid || event.kind != Succeeded || !FundsWalletOfSomeone(event.intent) ==>
              db.users == old(db.users) && db.walletEntries == old(db.walletEntries)
    ensures signatureValid && event.kind == Succeeded && FundsWalletOfSomeone(event.intent) ==>
              var u := event.intent.ownerId.value;
              var amount := CentsToAmount(event.intent.amountCents);
              && db.users == Credit(old(db.users), u, amount)
              && db.walletEntries == old(db.walletEntries) +
                   [WalletEntry(u, amount, Deposit, "card", event.intent.paymentMethodId, EntryCompleted,
                                "Wallet funding via credit card", now)]
  {
    if !signatureValid {
      return Response(400, false);
    }
    if event.kind == Succeeded {
      HandlePaymentIntentSucceeded(db, event.intent, now);
    }
    return Response(200, true);
  }

  /** An intent created by some user's wallet top-up. */
  predicate FundsWalletOfSomeone(intent: PaymentIntent)
  {
    intent.purpose == WalletFunding && intent.ownerId.Some?
  }
}
