/**
 * The eligibility gate of the `POST /cleaning-quote` handler.
 *
 * A request is checked in the fixed order region, apartment ID, lead time;
 * the first failing check decides the 400 reply, and only a request that
 * passes all three yields a payload, which is then signed into the token of
 * the decision link.
 *
 * The helpers the handler calls but that are not part of this model are
 * parameters: `leadTimeOk` stands for `is72hBeforeMidnight`, `sign` for
 * `signToken`, and `now` for the clock reading `Date.now()`.
 */
module CleaningQuote {
  import opened Wrappers
  import ApartmentId

  /** The only region the service is offered in. */
  const SupportedRegion := "Val Gardena"
  /** Discriminator carried by every cleaning-quote payload. */
  const QuoteType := "cleaning-quote"

  /** HTTP statuses of the handler's replies. */
  const StatusOk := 200
  const StatusBadRequest := 400

  /** The fields read from the request body; `None` is a field the body does not carry. */
  datatype Request = Request(
    region: Option<string>,
    name: Option<string>,
    email: Option<string>,
    apartmentId: Option<string>,
    dateISO: Option<string>)

  /** The data embedded in the decision-link token. */
  datatype Payload = Payload(
    kind: string,
    region: Option<string>,
    name: Option<string>,
    email: Option<string>,
    apartmentId: Option<string>,
    dateISO: Option<string>,
    requestedAt: int)

  /** The three eligibility checks, each named by the rejection it causes. */
  datatype Rejection = RegionRejected | InvalidId | InsufficientLeadTime

  /** Result of a submission: a rejection, or the payload together with its signed token. */
  datatype Outcome =
    | Rejected(reason: Rejection)
    | Accepted(payload: Payload, token: string)

  /** The JSON reply sent to the browser, with its HTTP status. */
  datatype Reply = Reply(status: int, success: bool, error: Option<string>)

  /** Position of a check in the evaluation order. */
  function Rank(k: Rejection): (pos: nat) {
    match k
    case RegionRejected => 0
    case InvalidId => 1
    case InsufficientLeadTime => 2
  }

  /** The user-facing messages of the three rejections. */
  const RegionMessage := "Disponibile solo per Val Gardena."
  const IdMessage := "ID appartamento non valido."
  const LeadTimeMessage := "La data deve essere richiesta 72h prima della mezzanotte del giorno scelto."

  /** The message of a rejection: each rejection has its own, so the message identifies the check. */
  function Message(k: Rejection): (m: string)
    ensures m == RegionMessage <==> k == RegionRejected
    ensures m == IdMessage <==> k == InvalidId
    ensures m == LeadTimeMessage <==> k == InsufficientLeadTime
  {
    assert |LeadTimeMessage| > |RegionMessage| > |IdMessage|;
    match k
    case RegionRejected => RegionMessage
    case InvalidId => IdMessage
    case InsufficientLeadTime => LeadTimeMessage
  }

  /** `String(apartmentId || '')`: an absent ID becomes the empty string, a present one is kept. */
  function CoerceId(id: Option<string>): (s: string)
    ensures id.None? ==> s == ""
    ensures id.Some? ==> s == id.value
  {
    match id
    case None => ""
    case Some(v) => v
  }

  /**
   * Declarative statement of what each check demands; the ID check is stated
   * by the format description, not by the regular expression.
   */
  predicate Passes(req: Request, leadTimeOk: Option<string> -> bool, k: Rejection) {
    match k
    case RegionRejected => req.region == Some(SupportedRegion)
    case InvalidId => ApartmentId.WellFormed(CoerceId(req.apartmentId))
    case InsufficientLeadTime => leadTimeOk(req.dateISO)
  }

  /** The payload built from an eligible request, with fields copied unchanged. */
  function BuildPayload(req: Request, now: int): (p: Payload)
    ensures p.kind == QuoteType && p.requestedAt == now
    ensures p.region == req.region && p.name == req.name && p.email == req.email
    ensures p.apartmentId == req.apartmentId && p.dateISO == req.dateISO
  {
    Payload(QuoteType, req.region, req.name, req.email, req.apartmentId, req.dateISO, now)
  }

  /**
   * The validation chain of the handler. The result is the rejection of the
   * first failing check in evaluation order, and a payload and token exist
   * exactly when every check passes.
   */
  function Submit(req: Request, leadTimeOk: Option<string> -> bool, sign: Payload -> string, now: int): (r: Outcome)
    ensures r.Accepted? <==> forall k :: Passes(req, leadTimeOk, k)
    ensures r.Rejected? ==> !Passes(req, leadTimeOk, r.reason)
    ensures r.Rejected? ==> forall k :: Rank(k) < Rank(r.reason) ==> Passes(req, leadTimeOk, k)
    ensures r.Accepted? ==> r.payload == BuildPayload(req, now) && r.token == sign(r.payload)
  {
    if req.region != Some(SupportedRegion) then
      assert !Passes(req, leadTimeOk, RegionRejected);
      Rejected(RegionRejected)
    else if !ApartmentId.Test(CoerceId(req.apartmentId)) then
      assert !Passes(req, leadTimeOk, InvalidId);
      Rejected(InvalidId)
    else if !leadTimeOk(req.dateISO) then
      assert !Passes(req, leadTimeOk, InsufficientLeadTime);
      Rejected(InsufficientLeadTime)
    else
      var payload := BuildPayload(req, now);
      Accepted(payload, sign(payload))
  }

  /** The reply the handler sends for an outcome. */
  function ReplyOf(o: Outcome): (reply: Reply)
    ensures reply.success <==> o.Accepted?
    ensures !reply.success ==> reply.status == StatusBadRequest && reply.error == Some(Message(o.reason))
    ensures reply.success ==> reply.status == StatusOk && reply.error == None
  {
    match o
    case Rejected(k) => Reply(StatusBadRequest, false, Some(Message(k)))
    case Accepted(_, _) => Reply(StatusOk, true, None)
  }

  /** Any region other than exactly "Val Gardena" is rejected first, whatever the other fields hold. */
  lemma WrongRegionRejected(req: Request, leadTimeOk: Option<string> -> bool, sign: Payload -> string, now: int)
    requires req.region != Some(SupportedRegion)
    ensures Submit(req, leadTimeOk, sign, now) == Rejected(RegionRejected)
  {
  }

  /**
   * Once the region passes, the ID check rejects exactly the IDs that are not
   * four or five characters of `[A-Za-z0-9]`.
   */
  lemma IdGate(req: Request, leadTimeOk: Option<string> -> bool, sign: Payload -> string, now: int)
    requires req.region == Some(SupportedRegion)
    ensures Submit(req, leadTimeOk, sign, now) == Rejected(InvalidId)
        <==> !ApartmentId.WellFormed(CoerceId(req.apartmentId))
  {
  }

  /** An absent or empty apartment ID is coerced to "" and rejected by the ID check. */
  lemma MissingIdRejected(req: Request, leadTimeOk: Option<string> -> bool, sign: Payload -> string, now: int)
    requires req.region == Some(SupportedRegion)
    requires req.apartmentId == None || req.apartmentId == Some("")
    ensures Submit(req, leadTimeOk, sign, now) == Rejected(InvalidId)
  {
  }

  /** An ID with a trailing newline is rejected, since `$` matches only at the very end. */
  lemma TrailingNewlineIdRejected(req: Request, id: string, leadTimeOk: Option<string> -> bool, sign: Payload -> string, now: int)
    requires req.region == Some(SupportedRegion)
    requires req.apartmentId == Some(id + "\n")
    ensures Submit(req, leadTimeOk, sign, now) == Rejected(InvalidId)
  {
    ApartmentId.TrailingNewlineRejected(id);
  }

  /** With region and ID valid, a false lead-time predicate gives the lead-time rejection. */
  lemma LeadTimeGate(req: Request, leadTimeOk: Option<string> -> bool, sign: Payload -> string, now: int)
    requires req.region == Some(SupportedRegion)
    requires ApartmentId.WellFormed(CoerceId(req.apartmentId))
    ensures Submit(req, leadTimeOk, sign, now) == Rejected(InsufficientLeadTime) <==> !leadTimeOk(req.dateISO)
  {
  }

  /**
   * Checks after the first failing one are not consulted: on a region failure
   * the outcome does not depend on the ID, the date, the lead-time predicate,
   * the signer or the clock.
   */
  lemma RegionFailureIgnoresLaterChecks(req1: Request, req2: Request,
                                        lead1: Option<string> -> bool, lead2: Option<string> -> bool,
                                        sign1: Payload -> string, sign2: Payload -> string, now1: int, now2: int)
    requires req1.region == req2.region != Some(SupportedRegion)
    ensures Submit(req1, lead1, sign1, now1) == Submit(req2, lead2, sign2, now2)
  {
  }

  /** On an ID failure the outcome does not depend on the date, the lead-time predicate, the signer or the clock. */
  lemma IdFailureIgnoresLeadTime(req1: Request, req2: Request,
                                 lead1: Option<string> -> bool, lead2: Option<string> -> bool,
                                 sign1: Payload -> string, sign2: Payload -> string, now1: int, now2: int)
    requires req1.region == req2.region == Some(SupportedRegion)
    requires req1.apartmentId == req2.apartmentId
    requires !ApartmentId.WellFormed(CoerceId(req1.apartmentId))
    ensures Submit(req1, lead1, sign1, now1) == Submit(req2, lead2, sign2, now2) == Rejected(InvalidId)
  {
  }

  /**
   * The signer is consulted only on success: whether a request is rejected,
   * and with which reason, is the same for every signer and every clock reading.
   */
  lemma RejectionIndependentOfSigner(req: Request, leadTimeOk: Option<string> -> bool,
                                     sign1: Payload -> string, sign2: Payload -> string, now1: int, now2: int)
    ensures Submit(req, leadTimeOk, sign1, now1).Rejected? <==> Submit(req, leadTimeOk, sign2, now2).Rejected?
    ensures Submit(req, leadTimeOk, sign1, now1).Rejected? ==>
      Submit(req, leadTimeOk, sign1, now1) == Submit(req, leadTimeOk, sign2, now2)
  {
  }

  /**
   * Every rejection is answered with status 400, `success: false` and the
   * message of the first failing check; the only other reply is status 200
   * with `success: true`, given exactly when all checks pass.
   */
  lemma ReplyMatchesEligibility(req: Request, leadTimeOk: Option<string> -> bool, sign: Payload -> string, now: int)
    ensures ReplyOf(Submit(req, leadTimeOk, sign, now)).success <==> forall k :: Passes(req, leadTimeOk, k)
    ensures !ReplyOf(Submit(req, leadTimeOk, sign, now)).success ==>
      ReplyOf(Submit(req, leadTimeOk, sign, now)).status == StatusBadRequest
  {
  }

  /** Distinct rejections carry distinct messages. */
  lemma MessagesDistinct(k1: Rejection, k2: Rejection)
    ensures Message(k1) == Message(k2) <==> k1 == k2
  {
  }

  /** Sample inputs: IDs from the format's edge cases, and two whole submissions. */
  lemma Examples(leadTimeOk: Option<string> -> bool, sign: Payload -> string, now: int)
    ensures !ApartmentId.Test("AB1") && !ApartmentId.Test("ABCDEF") && !ApartmentId.Test("AB 1")
    ensures ApartmentId.Test("A123") && ApartmentId.Test("zz9Z0") && !ApartmentId.Test("A123\n")
    ensures leadTimeOk(Some("2026-10-20")) ==>
      Submit(Request(Some("Val Gardena"), Some("Anna"), Some("anna@example.com"), Some("A123"), Some("2026-10-20")),
             leadTimeOk, sign, now).Accepted?
    ensures Submit(Request(Some("Garda"), Some("Anna"), Some("anna@example.com"), Some("A123"), Some("2026-10-20")),
                   leadTimeOk, sign, now) == Rejected(RegionRejected)
  {
    ApartmentId.WrongLengthRejected("AB1");
    ApartmentId.WrongLengthRejected("ABCDEF");
    ApartmentId.ForeignCharRejected("AB 1", 2);
    assert ApartmentId.WellFormed("A123");
    assert ApartmentId.WellFormed("zz9Z0");
    ApartmentId.TrailingNewlineRejected("A123");
  }
}
