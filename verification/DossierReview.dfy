/** Review of driver (KYC) and vehicle (KYV) dossiers (`ride/application/driver_service.py`). */
module DossierReview {
  import opened Prelude

  type DocumentType = string

  const KYC_DOCUMENT_TYPES: set<DocumentType> :=
    {"license_front", "license_back", "national_id_front", "national_id_back", "selfie"}
  const VEHICLE_DOCUMENT_TYPES: set<DocumentType> :=
    {"registration", "insurance", "technical_inspection", "transport_authorization", "vehicle_front", "vehicle_back",
     "vehicle_left", "vehicle_right", "vehicle_interior", "vehicle_plate"}
  const REQUIRED_VEHICLE_DOCUMENT_TYPES: set<DocumentType> := VEHICLE_DOCUMENT_TYPES - {"transport_authorization"}

  datatype ReviewStatus = Pending | Approved | Rejected

  datatype Details = Details(reasonCode: Option<string>, reason: Option<string>, correction: Option<string>) {
    predicate Complete() {
      Given(reasonCode) && Given(reason) && Given(correction)
    }
  }

  predicate Given(text: Option<string>) {
    text.Some? && text.value != ""
  }

  const NO_DETAILS := Details(None, None, None)

  datatype Review = Review(status: ReviewStatus, details: Details, reviewedAt: Option<int>)

  datatype LogEntry = LogEntry(doc: DocumentType, review: Review, reviewer: Option<Id>, resubmittedAt: Option<int>)

  /** The current review of each document, and the log that only grows. */
  datatype Book = Book(reviews: map<DocumentType, Review>, history: seq<LogEntry>) {
    function Record(e: LogEntry): Book {
      Book(reviews[e.doc := e.review], history + [e])
    }

    predicate IsRejected(doc: DocumentType) {
      doc in reviews && reviews[doc].status == Rejected
    }

    predicate IsApproved(doc: DocumentType) {
      doc in reviews && reviews[doc].status == Approved
    }
  }

  const BLANK := Book(map[], [])

  /** Requests decide a document one way or the other; `pending` is not a decision. */
  datatype Decision = Decision(doc: DocumentType, approve: bool, details: Details)

  datatype Error =
    | ProfileNotFound | InvalidLicense | IncompleteDossier | InvalidDocumentType | DuplicateDecision
    | RejectionDetailsRequired | DecisionsIncomplete

  datatype Visa = Visa(reviewer: Id, at: int)

  function Entered(d: Decision, visa: Visa): LogEntry {
    LogEntry(d.doc, Review(if d.approve then Approved else Rejected, d.details, Some(visa.at)), Some(visa.reviewer),
        None)
  }

  function Docs(ds: seq<Decision>): set<DocumentType> {
    set i | 0 <= i < |ds| :: ds[i].doc
  }

  // ---------------------------------------------------------------- document by document

  function Decided(book: Book, ds: seq<Decision>, allowed: set<DocumentType>, visa: Visa): Result<Book, Error> {
    if |ds| == 0 then Ok(book)
    else
      var n := |ds| - 1;
      match Decided(book, ds[..n], allowed, visa)
      case Err(e) => Err(e)
      case Ok(b) =>
        if ds[n].doc !in allowed then Err(InvalidDocumentType)
        else if ds[n].doc in Docs(ds[..n]) then Err(DuplicateDecision)
        else Ok(b.Record(Entered(ds[n], visa)))
  }

  method ApplyDocumentDecisions(book: Book, ds: seq<Decision>, allowed: set<DocumentType>, visa: Visa)
    returns (r: Result<Book, Error>)
    ensures r == Decided(book, ds, allowed, visa)
  {
    var reviews, history := book.reviews, book.history;
    var seen := {};
    var i := 0;
    while i < |ds|
      invariant i <= |ds|
      invariant seen == Docs(ds[..i])
      invariant Decided(book, ds[..i], allowed, visa) == Ok(Book(reviews, history))
    {
      assert ds[..i + 1][..i] == ds[..i];
      if ds[i].doc !in allowed {
        FirstErrorSticks(book, ds, i + 1, allowed, visa);
        return Err(InvalidDocumentType);
      }
      if ds[i].doc in seen {
        FirstErrorSticks(book, ds, i + 1, allowed, visa);
        return Err(DuplicateDecision);
      }
      seen := seen + {ds[i].doc};
      DocsGrow(ds, i);
      var entry := Entered(ds[i], visa);
      reviews := reviews[entry.doc := entry.review];
      history := history + [entry];
      i := i + 1;
    }
    assert ds[..i] == ds;
    return Ok(Book(reviews, history));
  }

  lemma DocsGrow(ds: seq<Decision>, i: nat)
    requires i < |ds|
    ensures Docs(ds[..i + 1]) == Docs(ds[..i]) + {ds[i].doc}
  {
    forall d | d in Docs(ds[..i]) + {ds[i].doc} ensures d in Docs(ds[..i + 1]) {
      if d == ds[i].doc {
        assert ds[..i + 1][i].doc == d;
      } else {
        var j :| 0 <= j < i && ds[..i][j].doc == d;
        assert ds[..i + 1][j].doc == d;
      }
    }
  }

  lemma {:induction false} FirstErrorSticks(book: Book, ds: seq<Decision>, k: nat, allowed: set<DocumentType>,
    visa: Visa)
    requires k <= |ds| && Decided(book, ds[..k], allowed, visa).Err?
    ensures Decided(book, ds, allowed, visa) == Decided(book, ds[..k], allowed, visa)
  {
    if k < |ds| {
      var n := |ds| - 1;
      assert ds[..n][..k] == ds[..k];
      FirstErrorSticks(book, ds[..n], k, allowed, visa);
    } else {
      assert ds[..k] == ds;
    }
  }

  predicate Distinct(ds: seq<Decision>) {
    forall i, j | 0 <= i < j < |ds| :: ds[i].doc != ds[j].doc
  }

  function Entries(ds: seq<Decision>, visa: Visa): seq<LogEntry> {
    seq(|ds|, i requires 0 <= i < |ds| => Entered(ds[i], visa))
  }

  ghost predicate Decides(before: Book, after: Book, ds: seq<Decision>, visa: Visa) {
    && after.history == before.history + Entries(ds, visa)
    && after.reviews.Keys == before.reviews.Keys + Docs(ds)
    && (forall i | 0 <= i < |ds| ::
        ds[i].doc in after.reviews && after.reviews[ds[i].doc] == Entered(ds[i], visa).review)
    && (forall d | d in before.reviews && d !in Docs(ds) :: after.reviews[d] == before.reviews[d])
  }

  /** A list of decisions is taken whole: it succeeds exactly when every document is known and decided
      once, and then each decided document carries its decision, the others keep theirs, and the log grows
      by exactly these decisions in order. */
  lemma {:induction false} DecisionsTakenWhole(book: Book, ds: seq<Decision>, allowed: set<DocumentType>, visa: Visa)
    ensures Decided(book, ds, allowed, visa).Ok? <==> Docs(ds) <= allowed && Distinct(ds)
    ensures Decided(book, ds, allowed, visa).Ok? ==> Decides(book, Decided(book, ds, allowed, visa).value, ds, visa)
  {
    DecisionsAccepted(book, ds, allowed, visa);
    if Decided(book, ds, allowed, visa).Ok? {
      DecisionsRecorded(book, ds, allowed, visa);
    }
  }

  lemma {:induction false} DecisionsAccepted(book: Book, ds: seq<Decision>, allowed: set<DocumentType>, visa: Visa)
    ensures Decided(book, ds, allowed, visa).Ok? <==> Docs(ds) <= allowed && Distinct(ds)
  {
    if |ds| > 0 {
      var n := |ds| - 1;
      DecisionsAccepted(book, ds[..n], allowed, visa);
      DocsGrow(ds, n);
      assert ds[..n + 1] == ds;
      DistinctLast(ds);
    }
  }

  lemma {:induction false} DecisionsRecorded(book: Book, ds: seq<Decision>, allowed: set<DocumentType>, visa: Visa)
    requires Decided(book, ds, allowed, visa).Ok?
    ensures Decides(book, Decided(book, ds, allowed, visa).value, ds, visa)
  {
    if |ds| > 0 {
      var n := |ds| - 1;
      DecisionsRecorded(book, ds[..n], allowed, visa);
      DocsGrow(ds, n);
      assert ds[..n + 1] == ds;
      assert Entries(ds, visa) == Entries(ds[..n], visa) + [Entered(ds[n], visa)];
      DecideOneMore(book, Decided(book, ds[..n], allowed, visa).value, ds, visa);
    } else {
      assert Entries(ds, visa) == [];
    }
  }

  lemma DecideOneMore(before: Book, mid: Book, ds: seq<Decision>, visa: Visa)
    requires |ds| > 0
    requires var n := |ds| - 1; Decides(before, mid, ds[..n], visa) && ds[n].doc !in Docs(ds[..n])
    ensures Decides(before, mid.Record(Entered(ds[|ds| - 1], visa)), ds, visa)
  {
    var n := |ds| - 1;
    var after := mid.Record(Entered(ds[n], visa));
    DocsGrow(ds, n);
    assert ds[..n + 1] == ds;
    assert Entries(ds, visa) == Entries(ds[..n], visa) + [Entered(ds[n], visa)];
    forall i | 0 <= i < |ds| ensures ds[i].doc in after.reviews && after.reviews[ds[i].doc]
        == Entered(ds[i], visa).review {
      if i < n {
        assert ds[..n][i] == ds[i];
      }
    }
  }

  lemma DistinctLast(ds: seq<Decision>)
    requires |ds| > 0
    ensures Distinct(ds) <==> Distinct(ds[..|ds| - 1]) && ds[|ds| - 1].doc !in Docs(ds[..|ds| - 1])
  {
    var n := |ds| - 1;
    if Distinct(ds[..n]) && ds[n].doc !in Docs(ds[..n]) {
      forall i, j | 0 <= i < j < |ds| ensures ds[i].doc != ds[j].doc {
        assert ds[..n][i].doc == ds[i].doc;
        if j < n {
          assert ds[..n][j].doc == ds[j].doc;
        }
      }
    }
    if Distinct(ds) {
      forall i, j | 0 <= i < j < n ensures ds[..n][i].doc != ds[..n][j].doc {}
    }
  }

  // ---------------------------------------------------------------- papers and resubmission

  datatype Papers = Papers(fileIds: set<DocumentType>, urls: set<DocumentType>) {
    predicate Cover(required: set<DocumentType>) {
      required <= fileIds + urls
    }
  }

  /** What a driver sends: file ids, and urls that may be blank (`false`). */
  datatype Submission = Submission(fileIds: set<DocumentType>, urls: map<DocumentType, bool>) {
    function Documents(): set<DocumentType> {
      fileIds + urls.Keys
    }
  }

  /** A blank url clears the stored one. */
  function Filed(p: Papers, sub: Submission): Papers {
    Papers(p.fileIds + sub.fileIds, (p.urls - sub.urls.Keys) + set d | d in sub.urls && sub.urls[d])
  }

  function Awaiting(doc: DocumentType, now: int): LogEntry {
    LogEntry(doc, Review(Pending, NO_DETAILS, None), None, Some(now))
  }

  /** `order` is the order in which the set of submitted documents happens to be walked. */
  function Marked(book: Book, order: seq<DocumentType>, now: int): Book {
    if |order| == 0 then book
    else Marked(book, order[..|order| - 1], now).Record(Awaiting(order[|order| - 1], now))
  }

  method MarkResubmittedDocumentsPending(book: Book, order: seq<DocumentType>, now: int) returns (r: Book)
    ensures r == Marked(book, order, now)
  {
    var reviews, history := book.reviews, book.history;
    for i := 0 to |order|
      invariant Book(reviews, history) == Marked(book, order[..i], now)
    {
      assert order[..i + 1][..i] == order[..i];
      var entry := Awaiting(order[i], now);
      reviews := reviews[entry.doc := entry.review];
      history := history + [entry];
    }
    assert order[..|order|] == order;
    return Book(reviews, history);
  }

  /** Exactly the submitted documents await review again; the others keep their decisions. */
  lemma {:induction false} ResubmittedArePending(book: Book, order: seq<DocumentType>, now: int)
    ensures var r := Marked(book, order, now);
            && (forall d | d in order :: d in r.reviews && r.reviews[d] == Awaiting(d, now).review)
            && (forall d | d !in order ::
                (d in r.reviews <==> d in book.reviews) && (d in book.reviews ==> r.reviews[d] == book.reviews[d]))
  {
    if |order| > 0 {
      var n := |order| - 1;
      ResubmittedArePending(book, order[..n], now);
      assert order == order[..n] + [order[n]];
    }
  }

  // ---------------------------------------------------------------- the review log

  function LastReview(history: seq<LogEntry>, doc: DocumentType): Option<Review> {
    if |history| == 0 then None
    else if history[|history| - 1].doc == doc then Some(history[|history| - 1].review)
    else LastReview(history[..|history| - 1], doc)
  }

  function Current(book: Book, doc: DocumentType): Option<Review> {
    if doc in book.reviews then Some(book.reviews[doc]) else None
  }

  /** The map of current reviews is what the log says last. */
  ghost predicate FollowsLog(book: Book) {
    forall d :: Current(book, d) == LastReview(book.history, d)
  }

  lemma RecordFollowsLog(book: Book, e: LogEntry)
    requires FollowsLog(book)
    ensures FollowsLog(book.Record(e))
  {
    var r := book.Record(e);
    assert r.history[..|book.history|] == book.history;
    forall d ensures Current(r, d) == LastReview(r.history, d) {
      assert Current(book, d) == LastReview(book.history, d);
    }
  }

  lemma {:induction false} DecidedFollowsLog(book: Book, ds: seq<Decision>, allowed: set<DocumentType>, visa: Visa)
    requires FollowsLog(book)
    ensures Decided(book, ds, allowed, visa).Ok? ==> FollowsLog(Decided(book, ds, allowed, visa).value)
  {
    if |ds| > 0 {
      var n := |ds| - 1;
      DecidedFollowsLog(book, ds[..n], allowed, visa);
      if Decided(book, ds, allowed, visa).Ok? {
        RecordFollowsLog(Decided(book, ds[..n], allowed, visa).value, Entered(ds[n], visa));
      }
    }
  }

  lemma {:induction false} MarkedFollowsLog(book: Book, order: seq<DocumentType>, now: int)
    requires FollowsLog(book)
    ensures FollowsLog(Marked(book, order, now))
  {
    if |order| > 0 {
      var n := |order| - 1;
      MarkedFollowsLog(book, order[..n], now);
      RecordFollowsLog(Marked(book, order[..n], now), Awaiting(order[n], now));
    }
  }

  // ---------------------------------------------------------------- approval and rejection of a dossier

  predicate AllApproved(book: Book, required: set<DocumentType>) {
    forall d | d in required :: book.IsApproved(d)
  }

  function DefaultDecisions(order: seq<DocumentType>): seq<Decision> {
    seq(|order|, i requires 0 <= i < |order| => Decision(order[i], true, NO_DETAILS))
  }

  function Approving(
    book: Book, papers: Papers, ds: seq<Decision>, order: seq<DocumentType>, allowed: set<DocumentType>,
    required: set<DocumentType>, visa: Visa): Result<Book, Error>
  {
    if !papers.Cover(required) then Err(IncompleteDossier)
    else
      match Decided(book, if ds == [] then DefaultDecisions(order) else ds, allowed, visa)
      case Err(e) => Err(e)
      case Ok(b) => if AllApproved(b, required) then Ok(b) else Err(DecisionsIncomplete)
  }

  predicate NamesRejection(ds: seq<Decision>) {
    exists i | 0 <= i < |ds| :: !ds[i].approve
  }

  predicate Explained(ds: seq<Decision>) {
    forall i | 0 <= i < |ds| :: !ds[i].approve ==> ds[i].details.Complete()
  }

  function Rejecting(book: Book, ds: seq<Decision>, allowed: set<DocumentType>, visa: Visa): Result<Book, Error> {
    if !NamesRejection(ds) || !Explained(ds) then Err(RejectionDetailsRequired)
    else Decided(book, ds, allowed, visa)
  }

  method ApproveDossier(
    book: Book, papers: Papers, ds: seq<Decision>, order: seq<DocumentType>, allowed: set<DocumentType>,
    required: set<DocumentType>, visa: Visa) returns (r: Result<Book, Error>)
    ensures r == Approving(book, papers, ds, order, allowed, required, visa)
  {
    if !papers.Cover(required) {
      return Err(IncompleteDossier);
    }
    var decisions := ds;
    if decisions == [] {
      decisions := DefaultDecisions(order);
    }
    r := ApplyDocumentDecisions(book, decisions, allowed, visa);
    if r.Ok? && !AllApproved(r.value, required) {
      r := Err(DecisionsIncomplete);
    }
  }

  method ApplyRejectionDecisions(book: Book, ds: seq<Decision>, allowed: set<DocumentType>, visa: Visa)
    returns (r: Result<Book, Error>)
    ensures r == Rejecting(book, ds, allowed, visa)
  {
    if !NamesRejection(ds) || !Explained(ds) {
      return Err(RejectionDetailsRequired);
    }
    r := ApplyDocumentDecisions(book, ds, allowed, visa);
  }

  /** The decision a list takes on one document, if any. */
  predicate SettledBy(book: Book, ds: seq<Decision>, d: DocumentType) {
    if d in Docs(ds) then exists i | 0 <= i < |ds| :: ds[i].doc == d && ds[i].approve else book.IsApproved(d)
  }

  lemma ApprovedAfter(before: Book, after: Book, ds: seq<Decision>, visa: Visa, d: DocumentType)
    requires Decides(before, after, ds, visa) && Distinct(ds)
    ensures after.IsApproved(d) <==> SettledBy(before, ds, d)
  {
    if d in Docs(ds) {
      var i :| 0 <= i < |ds| && ds[i].doc == d;
      assert after.reviews[ds[i].doc] == Entered(ds[i], visa).review;
      forall j | 0 <= j < |ds| && ds[j].doc == d ensures j == i {}
    }
  }

  /** An explicit list approves a dossier exactly when the papers are there, the list is well formed, and
      each required document is approved by it or was approved before and is left alone. */
  lemma ApprovalSucceedsExactlyWhen(
    book: Book, papers: Papers, ds: seq<Decision>, order: seq<DocumentType>, allowed: set<DocumentType>,
    required: set<DocumentType>, visa: Visa)
    requires ds != []
    ensures Approving(book, papers, ds, order, allowed, required, visa).Ok? <==>
              && papers.Cover(required) && Docs(ds) <= allowed && Distinct(ds)
              && forall d | d in required :: SettledBy(book, ds, d)
  {
    DecisionsTakenWhole(book, ds, allowed, visa);
    if Decided(book, ds, allowed, visa).Ok? {
      var after := Decided(book, ds, allowed, visa).value;
      forall d ensures after.IsApproved(d) <==> SettledBy(book, ds, d) {
        ApprovedAfter(book, after, ds, visa, d);
      }
    }
  }

  /** Approving with no list approves every required document, whatever was decided before. */
  lemma DefaultApprovalSucceeds(
    book: Book, papers: Papers, order: seq<DocumentType>, allowed: set<DocumentType>, required: set<DocumentType>,
        visa: Visa)
    requires required <= allowed && required != {} && papers.Cover(required)
    requires (forall d :: d in order <==> d in required) && forall i, j | 0 <= i < j < |order| :: order[i] != order[j]
    ensures Approving(book, papers, [], order, allowed, required, visa).Ok?
  {
    var ds := DefaultDecisions(order);
    assert Distinct(ds);
    forall d | d in Docs(ds) ensures d in required {
      var i :| 0 <= i < |ds| && ds[i].doc == d;
      assert order[i] in order;
    }
    DecisionsTakenWhole(book, ds, allowed, visa);
    var after := Decided(book, ds, allowed, visa).value;
    forall d | d in required ensures after.IsApproved(d) {
      var i :| 0 <= i < |order| && order[i] == d;
      assert ds[i].doc == d && ds[i].approve;
      ApprovedAfter(book, after, ds, visa, d);
    }
  }

  lemma RejectionIsFollowed(book: Book, ds: seq<Decision>, allowed: set<DocumentType>, visa: Visa)
    requires Rejecting(book, ds, allowed, visa).Ok?
    ensures var after := Rejecting(book, ds, allowed, visa).value;
            && (exists d | d in allowed :: after.IsRejected(d))
            && forall i | 0 <= i < |ds| && !ds[i].approve :: after.IsRejected(ds[i].doc)
  {
    DecisionsTakenWhole(book, ds, allowed, visa);
    var after := Rejecting(book, ds, allowed, visa).value;
    var i :| 0 <= i < |ds| && !ds[i].approve;
    assert after.reviews[ds[i].doc] == Entered(ds[i], visa).review;
    assert ds[i].doc in Docs(ds);
    assert after.IsRejected(ds[i].doc);
  }
}
