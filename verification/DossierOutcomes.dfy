/** What submissions, rejections and approvals leave on file and in the reviews, stated on the papers, the
    documents and the log alone. */
module DossierOutcomes {
  import opened Prelude
  import opened DossierReview
  import opened Dossiers

  // ---------------------------------------------------------------- papers

  /** A file id stays once sent; a url sent replaces the stored one, and a blank url clears it. */
  ghost predicate PapersAfter(before: Papers, sub: Submission, after: Papers) {
    forall d: DocumentType ::
      && (d in after.fileIds <==> d in before.fileIds || d in sub.fileIds)
      && (d in after.urls <==> if d in sub.urls then sub.urls[d] else d in before.urls)
  }

  lemma SubmissionsAreFiled(p: Profile, v: Vehicle, sub: Submission, order: seq<DocumentType>, now: int)
    ensures PapersAfter(NO_PAPERS, sub, NewProfile(sub).papers) && PapersAfter(NO_PAPERS, sub, NewVehicle(sub).papers)
    ensures var r := OnProfile(p, Resubmit(true, sub, order, now)); r.Ok? && PapersAfter(p.papers, sub, r.value.papers)
    ensures var r := OnVehicle(v, Resubmit(true, sub, order, now)); r.Ok? && PapersAfter(v.papers, sub, r.value.papers)
  {
  }

  /** A blank licence number refuses a profile's resubmission; nothing else does. */
  lemma ResubmissionRefusedExactlyWhen(p: Profile, licenseOk: bool, sub: Submission, order: seq<DocumentType>, now: int)
    ensures OnProfile(p, Resubmit(licenseOk, sub, order, now)).Ok? <==> licenseOk
  {
  }

  /** Reviews, refusals and reassignments leave the papers alone. */
  lemma ReviewsKeepPapers(p: Profile, v: Vehicle, e: Event)
    requires !e.Resubmit?
    ensures OnProfile(p, e).Ok? ==> OnProfile(p, e).value.papers == p.papers
    ensures OnVehicle(v, e).Ok? ==> OnVehicle(v, e).value.papers == v.papers
  {
  }

  /** Each of these documents comes as a file or as a url that is not blank. */
  predicate Brings(sub: Submission, docs: set<DocumentType>) {
    forall d | d in docs :: d in sub.fileIds || (d in sub.urls && sub.urls[d])
  }

  ghost predicate Lists(order: seq<DocumentType>, docs: set<DocumentType>) {
    (forall d :: d in order <==> d in docs) && forall i, j | 0 <= i < j < |order| :: order[i] != order[j]
  }

  /** End to end: a new profile with all five documents, approved without a list, is active from then on. */
  lemma CompleteProfileIsApproved(sub: Submission, order: seq<DocumentType>, visa: Visa)
    requires Brings(sub, KYC_DOCUMENT_TYPES) && Lists(order, KYC_DOCUMENT_TYPES)
    ensures var r := OnProfile(NewProfile(sub), Approve([], order, visa));
            && r.Ok? && r.value.status == Active && r.value.kyc == KycApproved && r.value.verifiedAt == Some(visa.at)
            && forall d | d in KYC_DOCUMENT_TYPES :: r.value.book.IsApproved(d)
  {
    var p := NewProfile(sub);
    assert "selfie" in KYC_DOCUMENT_TYPES;
    DefaultApprovalSucceeds(p.book, p.papers, order, KYC_DOCUMENT_TYPES, KYC_DOCUMENT_TYPES, visa);
  }

  lemma CompleteVehicleIsApproved(sub: Submission, order: seq<DocumentType>, visa: Visa)
    requires Brings(sub, REQUIRED_VEHICLE_DOCUMENT_TYPES) && Lists(order, REQUIRED_VEHICLE_DOCUMENT_TYPES)
    ensures var r := OnVehicle(NewVehicle(sub), Approve([], order, visa));
            && r.Ok? && r.value.status == KyvActive && r.value.verifiedAt == Some(visa.at)
            && forall d | d in REQUIRED_VEHICLE_DOCUMENT_TYPES :: r.value.book.IsApproved(d)
  {
    var v := NewVehicle(sub);
    assert "registration" in REQUIRED_VEHICLE_DOCUMENT_TYPES by {
      assert "registration"[0] != "transport_authorization"[0];
    }
    DefaultApprovalSucceeds(v.book, v.papers, order, VEHICLE_DOCUMENT_TYPES, REQUIRED_VEHICLE_DOCUMENT_TYPES, visa);
  }

  /** And after any rejection: bringing every document again, then an approval without a list, activates. */
  lemma CorrectedDossiersAreApproved(
    p: Profile, v: Vehicle, sub: Submission, marks: seq<DocumentType>, now: int, order: seq<DocumentType>,
    vehicleOrder: seq<DocumentType>, visa: Visa)
    requires Brings(sub, KYC_DOCUMENT_TYPES) && Lists(order, KYC_DOCUMENT_TYPES)
    requires Brings(sub, REQUIRED_VEHICLE_DOCUMENT_TYPES) && Lists(vehicleOrder, REQUIRED_VEHICLE_DOCUMENT_TYPES)
    ensures var r := OnProfile(OnProfile(p, Resubmit(true, sub, marks, now)).value, Approve([], order, visa));
            r.Ok? && r.value.status == Active && r.value.verifiedAt == Some(visa.at)
    ensures var r := OnVehicle(OnVehicle(v, Resubmit(true, sub, marks, now)).value, Approve([], vehicleOrder, visa));
            r.Ok? && r.value.status == KyvActive && r.value.verifiedAt == Some(visa.at)
  {
    var q := OnProfile(p, Resubmit(true, sub, marks, now)).value;
    var w := OnVehicle(v, Resubmit(true, sub, marks, now)).value;
    assert "selfie" in KYC_DOCUMENT_TYPES;
    assert "registration" in REQUIRED_VEHICLE_DOCUMENT_TYPES by {
      assert "registration"[0] != "transport_authorization"[0];
    }
    DefaultApprovalSucceeds(q.book, q.papers, order, KYC_DOCUMENT_TYPES, KYC_DOCUMENT_TYPES, visa);
    DefaultApprovalSucceeds(
      w.book, w.papers, vehicleOrder, VEHICLE_DOCUMENT_TYPES, REQUIRED_VEHICLE_DOCUMENT_TYPES, visa);
  }

  // ---------------------------------------------------------------- reviews

  predicate HasText(text: Option<string>) {
    text.Some? && text.value != ""
  }

  /** Known documents, each decided once. */
  ghost predicate WellFormed(ds: seq<Decision>, allowed: set<DocumentType>) {
    (forall i | 0 <= i < |ds| :: ds[i].doc in allowed) && forall i, j | 0 <= i < j < |ds| :: ds[i].doc != ds[j].doc
  }

  /** At least one refusal, and every refusal with its code, its reason and the correction expected. */
  predicate Justified(ds: seq<Decision>) {
    && (exists i | 0 <= i < |ds| :: !ds[i].approve)
    && forall i | 0 <= i < |ds| && !ds[i].approve ::
         HasText(ds[i].details.reasonCode) && HasText(ds[i].details.reason) && HasText(ds[i].details.correction)
  }

  lemma DocsIn(ds: seq<Decision>, allowed: set<DocumentType>)
    ensures WellFormed(ds, allowed) <==> Docs(ds) <= allowed && Distinct(ds)
  {
    if Docs(ds) <= allowed {
      forall i | 0 <= i < |ds| ensures ds[i].doc in allowed {
        assert ds[i].doc in Docs(ds);
      }
    }
  }

  /** A rejection is taken exactly when it is justified and well formed. */
  lemma RejectionTakenExactlyWhen(p: Profile, v: Vehicle, ds: seq<Decision>, visa: Visa)
    ensures OnProfile(p, Reject(ds, visa)).Ok? <==> Justified(ds) && WellFormed(ds, KYC_DOCUMENT_TYPES)
    ensures OnVehicle(v, Reject(ds, visa)).Ok? <==> Justified(ds) && WellFormed(ds, VEHICLE_DOCUMENT_TYPES)
  {
    DecisionsTakenWhole(p.book, ds, KYC_DOCUMENT_TYPES, visa);
    DecisionsTakenWhole(v.book, ds, VEHICLE_DOCUMENT_TYPES, visa);
    DocsIn(ds, KYC_DOCUMENT_TYPES);
    DocsIn(ds, VEHICLE_DOCUMENT_TYPES);
  }

  /** What one decision leaves: the document's review with its details and date, and the log entry with
      the reviewer. */
  ghost predicate Reviewed(before: Book, after: Book, ds: seq<Decision>, visa: Visa) {
    && |after.history| == |before.history| + |ds| && before.history <= after.history
    && (forall i | 0 <= i < |ds| ::
          && ds[i].doc in after.reviews
          && after.reviews[ds[i].doc]
             == Review(if ds[i].approve then Approved else Rejected, ds[i].details, Some(visa.at))
          && var e := after.history[|before.history| + i];
             e.doc == ds[i].doc && e.review == after.reviews[ds[i].doc] && e.reviewer == Some(visa.reviewer)
             && e.resubmittedAt == None)
    && forall d | d !in Docs(ds) :: Current(after, d) == Current(before, d)
  }

  lemma DecidedIsReviewed(book: Book, ds: seq<Decision>, allowed: set<DocumentType>, visa: Visa)
    requires Decided(book, ds, allowed, visa).Ok?
    ensures Reviewed(book, Decided(book, ds, allowed, visa).value, ds, visa)
  {
    var after := Decided(book, ds, allowed, visa).value;
    DecisionsTakenWhole(book, ds, allowed, visa);
    forall i | 0 <= i < |ds| ensures after.history[|book.history| + i] == Entered(ds[i], visa) {
      assert Entries(ds, visa)[i] == Entered(ds[i], visa);
    }
    forall d | d !in Docs(ds) ensures Current(after, d) == Current(book, d) {
      assert d in after.reviews <==> d in book.reviews;
    }
  }

  /** A rejected profile is pending again and unverified, with exactly those documents reviewed. */
  lemma RejectionIsRecorded(p: Profile, ds: seq<Decision>, visa: Visa)
    requires OnProfile(p, Reject(ds, visa)).Ok?
    ensures var r := OnProfile(p, Reject(ds, visa)).value;
            && r.status == PendingVerification && r.kyc == KycRejected && r.verifiedAt == None
            && Reviewed(p.book, r.book, ds, visa)
  {
    DecidedIsReviewed(p.book, ds, KYC_DOCUMENT_TYPES, visa);
  }

  /** A vehicle is rejected exactly when a required document stands rejected afterwards, an active one
      otherwise stays as it was, and any other waits. */
  lemma VehicleRejectionIsRecorded(v: Vehicle, ds: seq<Decision>, visa: Visa)
    requires OnVehicle(v, Reject(ds, visa)).Ok?
    ensures var r := OnVehicle(v, Reject(ds, visa)).value;
            && Reviewed(v.book, r.book, ds, visa)
            && (if exists d | d in REQUIRED_VEHICLE_DOCUMENT_TYPES :: Rejects(r.book, d)
                then r.status == KyvRejected && r.verifiedAt == None
                else r.verifiedAt == v.verifiedAt
                     && r.status == if v.status == KyvActive then KyvActive else KyvPending)
  {
    DecidedIsReviewed(v.book, ds, VEHICLE_DOCUMENT_TYPES, visa);
    var r := OnVehicle(v, Reject(ds, visa)).value;
    assert forall d :: Rejects(r.book, d) <==> r.book.IsRejected(d);
  }

  predicate Rejects(book: Book, d: DocumentType) {
    Current(book, d).Some? && Current(book, d).value.status == Rejected
  }

  /** A vehicle that changes hands stays active if it was, and otherwise waits for review again, even after
      a rejection; its papers, reviews and date stay. */
  lemma ReassignmentReopensRejected(v: Vehicle)
    ensures OnVehicle(v, Reassign).Ok?
    ensures var r := OnVehicle(v, Reassign).value;
            && r.papers == v.papers && r.book == v.book && r.verifiedAt == v.verifiedAt
            && (r.status == KyvActive <==> v.status == KyvActive) && r.status != KyvRejected
  {
  }

  /** A resubmitted document waits without details or date, and the log says when it came. */
  lemma ResubmissionIsRecorded(p: Profile, sub: Submission, order: seq<DocumentType>, now: int, i: nat)
    requires i < |order|
    ensures var r := OnProfile(p, Resubmit(true, sub, order, now)).value;
            && Current(r.book, order[i]) == Some(Review(Pending, Details(None, None, None), None))
            && |r.book.history| == |p.book.history| + |order|
            && r.book.history[|p.book.history| + i]
               == LogEntry(order[i], Review(Pending, Details(None, None, None), None), None, Some(now))
            && r.verifiedAt == None
  {
    ResubmittedArePending(p.book, order, now);
    MarkedLog(p.book, order, now, i);
  }

  lemma {:induction false} MarkedLog(book: Book, order: seq<DocumentType>, now: int, i: nat)
    requires i < |order|
    ensures var r := Marked(book, order, now);
            |r.history| == |book.history| + |order| && r.history[|book.history| + i] == Awaiting(order[i], now)
  {
    var n := |order| - 1;
    MarkedSize(book, order[..n], now);
    if i < n {
      MarkedLog(book, order[..n], now, i);
    }
  }

  lemma {:induction false} MarkedSize(book: Book, order: seq<DocumentType>, now: int)
    ensures |Marked(book, order, now).history| == |book.history| + |order|
  {
    if |order| > 0 {
      MarkedSize(book, order[..|order| - 1], now);
    }
  }
}
