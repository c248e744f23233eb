/** The rows and tables of the registration database, as values. */
module Tables {
  import opened Wrappers

  /** PENDING and CONFIRMED hold a place; CANCELLED and EXPIRED do not. */
  datatype Status = Pending | Confirmed | Cancelled | Expired {
    predicate Active() {
      Pending? || Confirmed?
    }
  }

  /** A registration number before it is printed as URC-year-value. */
  datatype Number = Number(year: nat, value: nat)

  datatype Registration = Registration(number: Number, user: Id, event: Id, category: Id, status: Status) {
    predicate SameEntry(other: Registration) {
      number == other.number && user == other.user && event == other.event && category == other.category
    }

    predicate SameRunner(user: Id, event: Id) {
      this.user == user && this.event == event
    }
  }

  datatype Provider = Manual | Bakong | Mock

  datatype Currency = USD | KHR

  /** Awaiting is the column value PENDING; the name avoids a clash with Status. */
  datatype PaymentStatus = Awaiting | Processing | Succeeded | Failed

  /** A reference or worker None is the empty string. A lease is reconcile_lease_until with reconcile_worker_id. */
  datatype Payment = Payment(
    registration: Id, provider: Provider, reference: Option<Id>, amountCents: nat, currency: Currency,
    status: PaymentStatus, expiresAt: Option<Instant>,
    reconcileAfter: Instant, leaseUntil: Option<Instant>, worker: Option<Id>, attempts: nat)
  {
    /** status='PENDING' AND expires_at IS NOT NULL AND expires_at <= now */
    predicate Overdue(now: Instant) {
      status.Awaiting? && expiresAt.Some? && expiresAt.value <= now
    }

    /** The payments a reconciler may claim at an instant. */
    predicate Due(now: Instant) {
      && status.Awaiting? && !provider.Manual? && reconcileAfter <= now
      && (leaseUntil.None? || leaseUntil.value < now)
    }

    predicate HeldBy(worker: Id) {
      status.Awaiting? && this.worker == Some(worker)
    }

    predicate SameCharge(other: Payment) {
      && registration == other.registration && provider == other.provider
      && amountCents == other.amountCents && currency == other.currency && expiresAt == other.expiresAt
    }
  }

  datatype Category = Category(event: Id, capacity: int)

  datatype Key = Key(user: Id, key: Id)

  /** A stored response: the registration it names, and whether it is the free path's, stored with the row itself. */
  datatype Outcome = Outcome(requestHash: Id, registration: Id, free: bool, expiresAt: Instant)

  datatype Db = Db(
    categories: map<Id, Category>,
    registrations: map<Id, Registration>,
    payments: map<Id, Payment>,
    tickets: map<Id, Id>,        // registration_id is unique; the value is the token hash
    checkIns: map<Id, Id>,       // registration_id is unique; the value is the staff member
    counters: map<nat, nat>,
    outcomes: map<Key, Outcome>)
  {
    /** The registrations that hold a place in a category. */
    function ActiveIn(category: Id): set<Id> {
      set r | r in registrations && registrations[r].category == category && registrations[r].status.Active()
    }

    predicate Taken(user: Id, event: Id) {
      exists r :: r in registrations && registrations[r].SameRunner(user, event) && registrations[r].status.Active()
    }

    function LastValue(year: nat): nat {
      if year in counters then counters[year] else 0
    }

    predicate StatusIs(r: Id, status: Status) {
      r in registrations && registrations[r].status == status
    }

    predicate ReferenceUsed(provider: Provider, reference: Option<Id>) {
      reference.Some? && exists p :: p in payments && payments[p].provider == provider && payments[p].reference == reference
    }
  }
}
