/** Driver profiles and vehicles under review: the stored rows and every run of submissions, approvals
    and rejections (`ride/application/driver_service.py`). */
module Dossiers {
  import opened Prelude
  import opened DossierReview

  datatype DriverStatus = PendingVerification | Active
  datatype KycStatus = KycPending | KycApproved | KycRejected
  datatype KyvStatus = KyvPending | KyvActive | KyvRejected

  datatype Profile = Profile(status: DriverStatus, kyc: KycStatus, papers: Papers, book: Book, verifiedAt: Option<int>)
  datatype Vehicle = Vehicle(status: KyvStatus, papers: Papers, book: Book, verifiedAt: Option<int>)

  const NO_PAPERS := Papers({}, {})

  function NewProfile(sub: Submission): Profile {
    Profile(PendingVerification, KycPending, Filed(NO_PAPERS, sub), BLANK, None)
  }

  function NewVehicle(sub: Submission): Vehicle {
    Vehicle(KyvPending, Filed(NO_PAPERS, sub), BLANK, None)
  }

  /** `Reassign` is a vehicle passing to a partner; it means nothing to a profile. */
  datatype Event =
    | Resubmit(licenseOk: bool, sub: Submission, order: seq<DocumentType>, now: int)
    | Approve(decisions: seq<Decision>, defaults: seq<DocumentType>, visa: Visa)
    | Reject(refusals: seq<Decision>, refusedBy: Visa)
    | Reassign

  function OnProfile(p: Profile, e: Event): Result<Profile, Error> {
    match e
    case Resubmit(licenseOk, sub, order, now) =>
      if !licenseOk then Err(InvalidLicense)
      else Ok(Profile(PendingVerification, KycPending, Filed(p.papers, sub), Marked(p.book, order, now), None))
    case Approve(ds, order, visa) =>
      (match Approving(p.book, p.papers, ds, order, KYC_DOCUMENT_TYPES, KYC_DOCUMENT_TYPES, visa)
       case Err(e) => Err(e)
       case Ok(b) => Ok(Profile(Active, KycApproved, p.papers, b, Some(visa.at))))
    case Reject(ds, visa) =>
      (match Rejecting(p.book, ds, KYC_DOCUMENT_TYPES, visa)
       case Err(e) => Err(e)
       case Ok(b) => Ok(Profile(PendingVerification, KycRejected, p.papers, b, None)))
    case Reassign => Ok(p)
  }

  predicate AnyRejected(book: Book, docs: set<DocumentType>) {
    exists d | d in docs :: book.IsRejected(d)
  }

  function OnVehicle(v: Vehicle, e: Event): Result<Vehicle, Error> {
    match e
    case Resubmit(_, sub, order, now) => Ok(Vehicle(KyvPending, Filed(v.papers, sub), Marked(v.book, order, now), None))
    case Approve(ds, order, visa) =>
      (match Approving(v.book, v.papers, ds, order, VEHICLE_DOCUMENT_TYPES, REQUIRED_VEHICLE_DOCUMENT_TYPES, visa)
       case Err(e) => Err(e)
       case Ok(b) => Ok(Vehicle(KyvActive, v.papers, b, Some(visa.at))))
    case Reject(ds, visa) =>
      (match Rejecting(v.book, ds, VEHICLE_DOCUMENT_TYPES, visa)
       case Err(e) => Err(e)
       case Ok(b) =>
         if AnyRejected(b, REQUIRED_VEHICLE_DOCUMENT_TYPES) then Ok(Vehicle(KyvRejected, v.papers, b, None))
         else Ok(v.(status := if v.status.KyvActive? then KyvActive else KyvPending, book := b)))
    case Reassign => Ok(v.(status := if v.status.KyvActive? then KyvActive else KyvPending))
  }

  // ---------------------------------------------------------------- the stored rows

  class ProfileRow {
    var status: DriverStatus
    var kyc: KycStatus
    var papers: Papers
    var reviews: map<DocumentType, Review>
    var history: seq<LogEntry>
    var verifiedAt: Option<int>

    constructor (sub: Submission)
      ensures Stored() == NewProfile(sub)
    {
      status, kyc, papers := PendingVerification, KycPending, Filed(NO_PAPERS, sub);
      reviews, history, verifiedAt := map[], [], None;
    }

    ghost function Stored(): Profile
      reads this
    {
      Profile(status, kyc, papers, Book(reviews, history), verifiedAt)
    }

    method SaveBook(book: Book)
      modifies this`reviews, this`history
      ensures reviews == book.reviews && history == book.history
    {
      reviews, history := book.reviews, book.history;
    }

    method ResubmitKyc(licenseOk: bool, sub: Submission, order: seq<DocumentType>,
      now: int) returns (error: Option<Error>)
      modifies this
      ensures error.None? ==> OnProfile(old(Stored()), Resubmit(licenseOk, sub, order, now)) == Ok(Stored())
      ensures error.Some? ==>
                OnProfile(old(Stored()), Resubmit(licenseOk, sub, order, now)) == Err(error.value) && Stored()
                    == old(Stored())
    {
      if !licenseOk {
        return Some(InvalidLicense);
      }
      papers := Filed(papers, sub);
      status, kyc := PendingVerification, KycPending;
      var book := MarkResubmittedDocumentsPending(Book(reviews, history), order, now);
      SaveBook(book);
      verifiedAt := None;
      return None;
    }

    method ApproveKyc(ds: seq<Decision>, order: seq<DocumentType>, visa: Visa) returns (error: Option<Error>)
      modifies this
      ensures error.None? ==> OnProfile(old(Stored()), Approve(ds, order, visa)) == Ok(Stored())
      ensures error.Some? ==>
                OnProfile(old(Stored()), Approve(ds, order, visa)) == Err(error.value) && Stored() == old(Stored())
    {
      var r := ApproveDossier(Book(reviews, history), papers, ds, order, KYC_DOCUMENT_TYPES, KYC_DOCUMENT_TYPES, visa);
      if r.Err? {
        return Some(r.error);
      }
      SaveBook(r.value);
      status, kyc, verifiedAt := Active, KycApproved, Some(visa.at);
      return None;
    }

    method RejectKyc(ds: seq<Decision>, visa: Visa) returns (error: Option<Error>)
      modifies this
      ensures error.None? ==> OnProfile(old(Stored()), Reject(ds, visa)) == Ok(Stored())
      ensures error.Some? ==>
                OnProfile(old(Stored()), Reject(ds, visa)) == Err(error.value) && Stored() == old(Stored())
    {
      var r := ApplyRejectionDecisions(Book(reviews, history), ds, KYC_DOCUMENT_TYPES, visa);
      if r.Err? {
        return Some(r.error);
      }
      SaveBook(r.value);
      status, kyc, verifiedAt := PendingVerification, KycRejected, None;
      return None;
    }
  }

  class VehicleRow {
    var status: KyvStatus
    var papers: Papers
    var reviews: map<DocumentType, Review>
    var history: seq<LogEntry>
    var verifiedAt: Option<int>

    constructor (sub: Submission)
      ensures Stored() == NewVehicle(sub)
    {
      status, papers := KyvPending, Filed(NO_PAPERS, sub);
      reviews, history, verifiedAt := map[], [], None;
    }

    ghost function Stored(): Vehicle
      reads this
    {
      Vehicle(status, papers, Book(reviews, history), verifiedAt)
    }

    method SaveBook(book: Book)
      modifies this`reviews, this`history
      ensures reviews == book.reviews && history == book.history
    {
      reviews, history := book.reviews, book.history;
    }

    method ResubmitKyv(sub: Submission, order: seq<DocumentType>, now: int)
      modifies this
      ensures OnVehicle(old(Stored()), Resubmit(true, sub, order, now)) == Ok(Stored())
    {
      papers, status := Filed(papers, sub), KyvPending;
      var book := MarkResubmittedDocumentsPending(Book(reviews, history), order, now);
      SaveBook(book);
      verifiedAt := None;
    }

    method ApproveKyv(ds: seq<Decision>, order: seq<DocumentType>, visa: Visa) returns (error: Option<Error>)
      modifies this
      ensures error.None? ==> OnVehicle(old(Stored()), Approve(ds, order, visa)) == Ok(Stored())
      ensures error.Some? ==>
                OnVehicle(old(Stored()), Approve(ds, order, visa)) == Err(error.value) && Stored() == old(Stored())
    {
      var r := ApproveDossier(
        Book(reviews, history), papers, ds, order, VEHICLE_DOCUMENT_TYPES, REQUIRED_VEHICLE_DOCUMENT_TYPES, visa);
      if r.Err? {
        return Some(r.error);
      }
      SaveBook(r.value);
      status, verifiedAt := KyvActive, Some(visa.at);
      return None;
    }

    method RejectKyv(ds: seq<Decision>, visa: Visa) returns (error: Option<Error>)
      modifies this
      ensures error.None? ==> OnVehicle(old(Stored()), Reject(ds, visa)) == Ok(Stored())
      ensures error.Some? ==>
                OnVehicle(old(Stored()), Reject(ds, visa)) == Err(error.value) && Stored() == old(Stored())
    {
      var r := ApplyRejectionDecisions(Book(reviews, history), ds, VEHICLE_DOCUMENT_TYPES, visa);
      if r.Err? {
        return Some(r.error);
      }
      SaveBook(r.value);
      if AnyRejected(r.value, REQUIRED_VEHICLE_DOCUMENT_TYPES) {
        status, verifiedAt := KyvRejected, None;
      } else if status != KyvActive {
        status := KyvPending;
      }
      return None;
    }
  }

  // ---------------------------------------------------------------- runs

  /** A request that raises is rolled back: the stored row stays. */
  function RunProfile(p: Profile, events: seq<Event>): Profile {
    if |events| == 0 then p
    else
      var before := RunProfile(p, events[..|events| - 1]);
      var r := OnProfile(before, events[|events| - 1]);
      if r.Ok? then r.value else before
  }

  function RunVehicle(v: Vehicle, events: seq<Event>): Vehicle {
    if |events| == 0 then v
    else
      var before := RunVehicle(v, events[..|events| - 1]);
      var r := OnVehicle(before, events[|events| - 1]);
      if r.Ok? then r.value else before
  }

  /** An active profile is an approved one with every document on file and approved; a rejected one names a
      rejected document; the verification time is there exactly while active. */
  ghost predicate ProfileSound(p: Profile) {
    && FollowsLog(p.book)
    && (p.status.Active? <==> p.kyc.KycApproved?)
    && (p.verifiedAt.Some? <==> p.kyc.KycApproved?)
    && (p.kyc.KycApproved? ==> AllApproved(p.book, KYC_DOCUMENT_TYPES) && p.papers.Cover(KYC_DOCUMENT_TYPES))
    && (p.kyc.KycRejected? ==> AnyRejected(p.book, KYC_DOCUMENT_TYPES))
  }

  ghost predicate VehicleSound(v: Vehicle) {
    && FollowsLog(v.book)
    && (v.verifiedAt.Some? <==> v.status.KyvActive?)
    && (v.status.KyvActive? ==>
          AllApproved(v.book, REQUIRED_VEHICLE_DOCUMENT_TYPES) && v.papers.Cover(REQUIRED_VEHICLE_DOCUMENT_TYPES))
    && (v.status.KyvRejected? ==> AnyRejected(v.book, REQUIRED_VEHICLE_DOCUMENT_TYPES))
  }

  lemma ProfileStaysSound(p: Profile, e: Event)
    requires ProfileSound(p) && OnProfile(p, e).Ok?
    ensures ProfileSound(OnProfile(p, e).value)
  {
    match e
    case Resubmit(_, _, order, now) => MarkedFollowsLog(p.book, order, now);
    case Approve(ds, order, visa) =>
      DecidedFollowsLog(p.book, if ds == [] then DefaultDecisions(order) else ds, KYC_DOCUMENT_TYPES, visa);
    case Reject(ds, visa) =>
      DecidedFollowsLog(p.book, ds, KYC_DOCUMENT_TYPES, visa);
      RejectionIsFollowed(p.book, ds, KYC_DOCUMENT_TYPES, visa);
    case Reassign =>
  }

  /** A refusal list can leave an approved document approved or reject it, nothing else. */
  lemma RefusalsApproveOrReject(v: Vehicle, ds: seq<Decision>, visa: Visa, required: set<DocumentType>)
    requires AllApproved(v.book, required) && Rejecting(v.book, ds, VEHICLE_DOCUMENT_TYPES, visa).Ok?
    ensures var after := Rejecting(v.book, ds, VEHICLE_DOCUMENT_TYPES, visa).value;
            forall d | d in required :: after.IsApproved(d) || after.IsRejected(d)
  {
    DecisionsTakenWhole(v.book, ds, VEHICLE_DOCUMENT_TYPES, visa);
    var after := Rejecting(v.book, ds, VEHICLE_DOCUMENT_TYPES, visa).value;
    forall d | d in required ensures after.IsApproved(d) || after.IsRejected(d) {
      assert v.book.IsApproved(d);
      if d in Docs(ds) {
        var i :| 0 <= i < |ds| && ds[i].doc == d;
        assert after.reviews[ds[i].doc] == Entered(ds[i], visa).review;
      }
    }
  }

  lemma VehicleStaysSound(v: Vehicle, e: Event)
    requires VehicleSound(v) && OnVehicle(v, e).Ok?
    ensures VehicleSound(OnVehicle(v, e).value)
  {
    match e
    case Resubmit(_, _, order, now) => MarkedFollowsLog(v.book, order, now);
    case Approve(ds, order, visa) =>
      DecidedFollowsLog(v.book, if ds == [] then DefaultDecisions(order) else ds, VEHICLE_DOCUMENT_TYPES, visa);
    case Reject(ds, visa) =>
      DecidedFollowsLog(v.book, ds, VEHICLE_DOCUMENT_TYPES, visa);
      if v.status.KyvActive? {
        RefusalsApproveOrReject(v, ds, visa, REQUIRED_VEHICLE_DOCUMENT_TYPES);
      }
    case Reassign =>
  }

  lemma {:induction false} ProfilesFollowTheirReviews(sub: Submission, events: seq<Event>)
    ensures ProfileSound(RunProfile(NewProfile(sub), events))
  {
    if |events| > 0 {
      var n := |events| - 1;
      ProfilesFollowTheirReviews(sub, events[..n]);
      var p := RunProfile(NewProfile(sub), events[..n]);
      if OnProfile(p, events[n]).Ok? {
        ProfileStaysSound(p, events[n]);
      }
    }
  }

  lemma {:induction false} VehiclesFollowTheirReviews(sub: Submission, events: seq<Event>)
    ensures VehicleSound(RunVehicle(NewVehicle(sub), events))
  {
    if |events| > 0 {
      var n := |events| - 1;
      VehiclesFollowTheirReviews(sub, events[..n]);
      var v := RunVehicle(NewVehicle(sub), events[..n]);
      if OnVehicle(v, events[n]).Ok? {
        VehicleStaysSound(v, events[n]);
      }
    }
  }

  /** An active vehicle survives a refusal exactly when no required document is refused in it; refusing
      the transport authorization alone never costs it its status or its verification date. */
  lemma OptionalRefusalKeepsVehicleActive(sub: Submission, events: seq<Event>, ds: seq<Decision>, visa: Visa)
    requires RunVehicle(NewVehicle(sub), events).status.KyvActive?
    requires OnVehicle(RunVehicle(NewVehicle(sub), events), Reject(ds, visa)).Ok?
    ensures var v := RunVehicle(NewVehicle(sub), events);
            var w := OnVehicle(v, Reject(ds, visa)).value;
            && (w.status.KyvActive? <==> forall i | 0 <= i < |ds| && !ds[i].approve ::
                ds[i].doc == "transport_authorization")
            && (w.status.KyvActive? ==> w.verifiedAt == v.verifiedAt)
            && (!w.status.KyvActive? ==> w.status.KyvRejected?)
  {
    VehiclesFollowTheirReviews(sub, events);
    var v := RunVehicle(NewVehicle(sub), events);
    RefusedExactly(v.book, ds, visa);
  }

  lemma RefusedExactly(book: Book, ds: seq<Decision>, visa: Visa)
    requires AllApproved(book, REQUIRED_VEHICLE_DOCUMENT_TYPES) && Rejecting(book, ds, VEHICLE_DOCUMENT_TYPES, visa).Ok?
    ensures AnyRejected(Rejecting(book, ds, VEHICLE_DOCUMENT_TYPES, visa).value, REQUIRED_VEHICLE_DOCUMENT_TYPES) <==>
              exists i | 0 <= i < |ds| && !ds[i].approve :: ds[i].doc != "transport_authorization"
  {
    var after := Rejecting(book, ds, VEHICLE_DOCUMENT_TYPES, visa).value;
    DecisionsTakenWhole(book, ds, VEHICLE_DOCUMENT_TYPES, visa);
    RejectionIsFollowed(book, ds, VEHICLE_DOCUMENT_TYPES, visa);
    if AnyRejected(after, REQUIRED_VEHICLE_DOCUMENT_TYPES) {
      var d :| d in REQUIRED_VEHICLE_DOCUMENT_TYPES && after.IsRejected(d);
      assert book.IsApproved(d);
      assert d in Docs(ds);
      var i :| 0 <= i < |ds| && ds[i].doc == d;
      assert after.reviews[ds[i].doc] == Entered(ds[i], visa).review;
    }
    if i :| 0 <= i < |ds| && !ds[i].approve && ds[i].doc != "transport_authorization" {
      assert ds[i].doc in Docs(ds);
      assert ds[i].doc in REQUIRED_VEHICLE_DOCUMENT_TYPES && after.IsRejected(ds[i].doc);
    }
  }

  /** A resubmission reopens exactly the documents it brings, walked in any order: those are pending, the
      others keep their reviews, and the profile waits for review again. */
  lemma ResubmissionReopensWhatItBrings(p: Profile, sub: Submission, order: seq<DocumentType>, now: int,
    d: DocumentType)
    requires forall x :: x in order <==> x in sub.Documents()
    ensures var r := OnProfile(p, Resubmit(true, sub, order, now));
            && r.Ok? && r.value.kyc.KycPending? && r.value.status.PendingVerification?
            && (d in sub.Documents() ==> Current(r.value.book, d) == Some(Awaiting(d, now).review))
            && (d !in sub.Documents() ==> Current(r.value.book, d) == Current(p.book, d))
  {
    ResubmittedArePending(p.book, order, now);
  }

  /** The log is never rewritten. */
  lemma {:induction false} VehicleLogOnlyGrows(v: Vehicle, events: seq<Event>)
    ensures v.book.history <= RunVehicle(v, events).book.history
  {
    if |events| > 0 {
      var n := |events| - 1;
      VehicleLogOnlyGrows(v, events[..n]);
      EventGrowsBook(RunVehicle(v, events[..n]).book, events[n]);
    }
  }

  lemma {:induction false} ProfileLogOnlyGrows(p: Profile, events: seq<Event>)
    ensures p.book.history <= RunProfile(p, events).book.history
  {
    if |events| > 0 {
      var n := |events| - 1;
      ProfileLogOnlyGrows(p, events[..n]);
      EventGrowsBook(RunProfile(p, events[..n]).book, events[n]);
    }
  }

  lemma EventGrowsBook(book: Book, e: Event)
    ensures e.Resubmit? ==> book.history <= Marked(book, e.order, e.now).history
    ensures e.Approve? ==> forall allowed, ds :: Decided(book, ds, allowed, e.visa).Ok? ==>
              book.history <= Decided(book, ds, allowed, e.visa).value.history
    ensures e.Reject? ==> forall allowed, ds :: Decided(book, ds, allowed, e.refusedBy).Ok? ==>
              book.history <= Decided(book, ds, allowed, e.refusedBy).value.history
  {
    match e
    case Resubmit(_, _, order, now) => MarkedGrows(book, order, now);
    case Approve(_, _, visa) => DecidedGrows(book, visa);
    case Reject(_, visa) => DecidedGrows(book, visa);
    case Reassign =>
  }

  lemma DecidedGrows(book: Book, visa: Visa)
    ensures forall allowed, ds :: Decided(book, ds, allowed, visa).Ok? ==>
              book.history <= Decided(book, ds, allowed, visa).value.history
  {
    forall allowed, ds | Decided(book, ds, allowed, visa).Ok?
      ensures book.history <= Decided(book, ds, allowed, visa).value.history
    {
      DecisionsTakenWhole(book, ds, allowed, visa);
    }
  }

  lemma {:induction false} MarkedGrows(book: Book, order: seq<DocumentType>, now: int)
    ensures book.history <= Marked(book, order, now).history
  {
    if |order| > 0 {
      MarkedGrows(book, order[..|order| - 1], now);
    }
  }
}
