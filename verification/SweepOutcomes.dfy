/** How a reconciliation sweep sorts its rows and what its report says of them, stated on the answers. */
module SweepOutcomes {
  import opened Prelude
  import opened PaymentDomain
  import opened PaymentBooks
  import opened PaymentFlows
  import opened WalletLaws
  import opened WithdrawalLaws
  import opened PaymentRuns
  import opened PaymentEffects
  import opened PaymentTheorems
  import opened PayoutOutcomes

  // ---------------------------------------------------------------- the report counts its rows

  /** Where the row after `earlier` is sorted, if the sweep gets past it. */
  function SortedAt(b: Books, rides: map<Id, Ride>, earlier: seq<Job>, job: Job, now: nat): Option<Swept> {
    match Sweep(b, rides, earlier, now)
    case SweepRaised(_) => None
    case Sweeping(books, _, _) =>
      var s := Reconcile(books, rides, job, now);
      if s.Counted? then Some(s) else None
  }

  function RowsSorted(b: Books, rides: map<Id, Ride>, jobs: seq<Job>, now: nat, bucket: Bucket): nat {
    if |jobs| == 0 then 0
    else
      var n := |jobs| - 1;
      var s := SortedAt(b, rides, jobs[..n], jobs[n], now);
      RowsSorted(b, rides, jobs[..n], now, bucket) + Flag(s.Some? && s.value.bucket == bucket)
  }

  /** The references of the rows that changed, in the order the sweep met them. */
  function Changed(b: Books, rides: map<Id, Ride>, jobs: seq<Job>, now: nat): seq<Reference> {
    if |jobs| == 0 then []
    else
      var n := |jobs| - 1;
      var s := SortedAt(b, rides, jobs[..n], jobs[n], now);
      Changed(b, rides, jobs[..n], now) + if s.Some? && s.value.bucket.Updated? then [s.value.reference] else []
  }

  /** A report agrees with the counts and the names. */
  predicate Counts(
    r: Report, updated: nat, same: nat, missing: nat, mismatched: nat, errors: nat, names: seq<Reference>)
  {
    && r.updated == updated && r.same == same && r.missing == missing && r.mismatched == mismatched
    && r.errors == errors && r.references == names
  }

  lemma TallyCounts(r: Report, bucket: Bucket, reference: Reference)
    ensures Counts(Tally(r, bucket, reference),
              r.updated + Flag(bucket == Updated), r.same + Flag(bucket == Unchanged),
              r.missing + Flag(bucket == Missing), r.mismatched + Flag(bucket == Mismatched),
              r.errors + Flag(bucket == Errored),
              r.references + if bucket.Updated? then [reference] else [])
  {
  }

  lemma LastRow(b: Books, rides: map<Id, Ride>, jobs: seq<Job>, now: nat) returns (s: Swept)
    requires |jobs| > 0 && Sweep(b, rides, jobs, now).Sweeping?
    ensures var n := |jobs| - 1; var before := Sweep(b, rides, jobs[..n], now);
            && s.Counted? && SortedAt(b, rides, jobs[..n], jobs[n], now) == Some(s) && before.Sweeping?
            && Sweep(b, rides, jobs, now).report == Tally(before.report, s.bucket, s.reference)
  {
    s := SortedAt(b, rides, jobs[..|jobs| - 1], jobs[|jobs| - 1], now).value;
  }

  lemma LastCount(b: Books, rides: map<Id, Ride>, jobs: seq<Job>, now: nat, s: Swept)
    requires |jobs| > 0 && s.Counted?
    requires SortedAt(b, rides, jobs[..|jobs| - 1], jobs[|jobs| - 1], now) == Some(s)
    ensures forall bucket ::
              RowsSorted(b, rides, jobs, now, bucket)
              == RowsSorted(b, rides, jobs[..|jobs| - 1], now, bucket) + Flag(s.bucket == bucket)
    ensures Changed(b, rides, jobs, now)
         == Changed(b, rides, jobs[..|jobs| - 1], now) + if s.bucket.Updated? then [s.reference] else []
  {
  }

  /** A returned report counts, for each kind, exactly the rows sorted there, and names the changed ones. */
  lemma {:induction false} ReportCountsEachKind(b: Books, rides: map<Id, Ride>, jobs: seq<Job>, now: nat)
    requires Sweep(b, rides, jobs, now).Sweeping?
    ensures Counts(Sweep(b, rides, jobs, now).report,
              RowsSorted(b, rides, jobs, now, Updated), RowsSorted(b, rides, jobs, now, Unchanged),
              RowsSorted(b, rides, jobs, now, Missing), RowsSorted(b, rides, jobs, now, Mismatched),
              RowsSorted(b, rides, jobs, now, Errored), Changed(b, rides, jobs, now))
  {
    if |jobs| > 0 {
      var s := LastRow(b, rides, jobs, now);
      ReportCountsEachKind(b, rides, jobs[..|jobs| - 1], now);
      LastCount(b, rides, jobs, now, s);
      TallyCounts(Sweep(b, rides, jobs[..|jobs| - 1], now).report, s.bucket, s.reference);
    }
  }

  // ---------------------------------------------------------------- where a row is sorted

  predicate SortedTo(b: Books, s: Swept, bucket: Bucket, reference: Reference) {
    s == Counted(b, bucket, reference, [])
  }

  /** The answer names another amount or currency, or another reference where both name one. */
  predicate Disagrees(intent: Intent, amount: int, currency: string, reference: Option<Reference>) {
    || intent.amount != Number(amount) || intent.currency != Some(currency)
    || (reference.Some? && intent.reference.Some? && intent.reference != reference)
  }

  /** No intent, or none the provider knows: missing. An unreadable answer: an error. One that disagrees:
      mismatched. In each case every table stays. */
  predicate SortedByIntent(
    b: Books, s: Swept, intentId: Option<Id>, answer: IntentAnswer, amount: int, currency: string,
    own: Option<Reference>, reference: Reference)
  {
    && (intentId.None? || answer.UnknownIntent? ==> SortedTo(b, s, Missing, reference))
    && (intentId.Some? && answer.Unreadable? ==> SortedTo(b, s, Errored, reference))
    && (intentId.Some? && answer.IntentFound? && Disagrees(answer.intent, amount, currency, own) ==>
          SortedTo(b, s, Mismatched, reference))
  }

  lemma PaymentRowsAreSorted(b: Books, rides: map<Id, Ride>, i: nat, answer: IntentAnswer, now: nat)
    requires i < |b.payments| && PaymentById(b, b.payments[i].id) == Some(i)
    ensures var p := b.payments[i];
            SortedByIntent(
              b, ReconcileTransaction(b, rides, p.id, answer, now), p.intentId, answer, p.amount, p.currency,
              p.reference, if p.reference.Some? then p.reference.value else RideRef(p.rideId))
  {
  }

  lemma TopupRowsAreSorted(b: Books, i: nat, answer: IntentAnswer, now: nat)
    requires i < |b.topups| && TopupById(b, b.topups[i].id) == Some(i)
    ensures var t := b.topups[i];
            SortedByIntent(b, ReconcileTopup(b, t.id, answer, now), t.intentId, answer, t.amount, t.currency,
              Some(t.reference), t.reference)
  {
  }

  lemma FoundPayoutIsSorted(b: Books, i: nat, payout: Payout, now: nat)
    requires i < |b.withdrawals| && WithdrawalById(b, b.withdrawals[i].id) == Some(i) && b.withdrawals[i].net > 0
    ensures var w := b.withdrawals[i]; var s := ReconcileWithdrawal(b, w.id, PayoutFound(payout), now);
            if payout.amount == NotANumber then s == Aborted(NotANumberError)
            else if payout.amount != Number(w.net) || payout.currency != Some(w.currency)
                    || payout.reference != Some(w.reference)
            then SortedTo(b, s, Mismatched, w.reference)
            else !(s.Counted? && s.bucket in {Missing, Mismatched})
  {
  }

  /** A payout the provider does not know is missing, one it cannot give is an error, a crash or an amount
      that is no number stops the sweep, and one with another net amount, currency or reference, or no
      amount, is mismatched. */
  lemma {:induction false} PayoutRowsAreSorted(b: Books, i: nat, answer: PayoutAnswer, now: nat)
    requires Sound(b) && i < |b.withdrawals|
    ensures var w := b.withdrawals[i]; var s := ReconcileWithdrawal(b, w.id, answer, now);
            match answer
            case UnknownPayout => SortedTo(b, s, Missing, w.reference)
            case PayoutApiError => SortedTo(b, s, Errored, w.reference)
            case PayoutCrash => s == Aborted(ProviderUnavailable)
            case PayoutFound(payout) =>
              if payout.amount == NotANumber then s == Aborted(NotANumberError)
              else if payout.amount != Number(w.net) || payout.currency != Some(w.currency)
                      || payout.reference != Some(w.reference)
              then SortedTo(b, s, Mismatched, w.reference)
              else !(s.Counted? && s.bucket in {Missing, Mismatched})
  {
    FoundAt(b, i);
    NetIsPositive(b, i);
    if answer.PayoutFound? {
      FoundPayoutIsSorted(b, i, answer.payout, now);
    }
  }
}
