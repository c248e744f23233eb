/** A payment settles on the amount that its QR code has printed, and on no other. */
module Settlement {
  import opened Wrappers
  import opened Tables
  import opened Decimal
  import opened Money
  import opened Reconciler
  import Khqr

  /** When a payer has paid some amount and the provider reports it, the reconciler accepts exactly if it is the amount due. */
  lemma OnlyTheAmountDueSettles(stored: Payment, paid: nat, code: string, amount: real, read: int, now: Instant)
    requires stored.reference.Some? && stored.amountCents <= BOUND && paid <= BOUND
    requires Normalized(code) == Some(stored.currency)
    requires Rounded(amount, Major(stored.currency, paid)) && ReadsAs(stored.currency, amount, read)
    ensures Decide(stored, stored.provider, Settled(read, Normalized(code).value), now).AcceptPayment? <==> paid == stored.amountCents
  {
    MoneySurvives(stored.currency, paid, amount, read);
  }

  /** The text printed for an amount, in cents or in whole riel, denotes exactly it. */
  lemma PrintedDenotes(currency: Currency, cents: nat, quotient: real)
    requires 0 < cents <= BOUND && quotient >= 0.0 && (currency.USD? ==> Rounded(quotient, cents as real / 100.0))
    ensures ReadDecimal(Khqr.AmountText(currency, cents, quotient)) == Some(Major(currency, cents))
  {
    if currency.USD? {
      PrintsCents(cents, quotient);
      ReadsCents(cents);
    } else {
      ValueOfDigits(cents);
    }
  }

  /** ... and the payment of the amount that the text denotes is accepted. */
  lemma PrintedAmountSettles(stored: Payment, quotient: real, amount: real, read: int, now: Instant)
    requires stored.reference.Some? && 0 < stored.amountCents <= BOUND && quotient >= 0.0
    requires stored.currency.USD? ==> Rounded(quotient, stored.amountCents as real / 100.0)
    ensures var printed := ReadDecimal(Khqr.AmountText(stored.currency, stored.amountCents, quotient));
      && printed == Some(Major(stored.currency, stored.amountCents))
      && (Rounded(amount, printed.value) && ReadsAs(stored.currency, amount, read) ==>
            Decide(stored, stored.provider, Settled(read, stored.currency), now).AcceptPayment?)
  {
    PrintedDenotes(stored.currency, stored.amountCents, quotient);
    if Rounded(amount, Major(stored.currency, stored.amountCents)) && ReadsAs(stored.currency, amount, read) {
      MoneySurvives(stored.currency, stored.amountCents, amount, read);
    }
  }
}
