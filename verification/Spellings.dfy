/** A spelling that is faithful: the texts of the small enumerations are the source's own; reasons, times and digests
    are written in some way that tells them apart. */
module Spellings {
  import opened Decimals
  import opened DigestRendering
  import opened JsonText
  import opened JsonValues
  import opened Records

  // ----- The source's texts ---------------------------------------------------------------------

  /** A value that is none of the known ones. */
  function Unknown(text: string): string {
    ['?'] + text
  }

  function VerdictText(verdict: Verdict): string {
    match verdict
    case ALLOW => "ALLOW"
    case REVIEW => "REVIEW"
    case DENY => "DENY"
    case OtherVerdict(text) => Unknown(text)
  }

  function EffectText(effect: Effect): string {
    match effect
    case AllowEffect => "ALLOW"
    case ReviewEffect => "REVIEW"
    case DenyEffect => "DENY"
  }

  function OutcomeText(outcome: Outcome): string {
    match outcome
    case SUCCEEDED => "SUCCEEDED"
    case FAILED => "FAILED"
    case NOT_EXECUTED => "NOT_EXECUTED"
  }

  function AuthorityText(effect: AuthorityEffect): string {
    match effect
    case OneShotReviewOnly => "ONE_SHOT_REVIEW_ONLY"
    case ExecutionOnce => "EXECUTION_ONCE"
    case EvidenceOnly => "EVIDENCE_ONLY"
    case AttestsExactSnapshot => "ATTESTS_EXACT_REGISTRY_SNAPSHOT"
    case OtherAuthority(text) => Unknown(text)
  }

  function IssuerText(issuer: IssuerType): string {
    match issuer
    case Human => "HUMAN"
    case OtherIssuer(text) => Unknown(text)
  }

  function EventKindText(kind: EventKind): string {
    match kind
    case ISSUED => "ISSUED"
    case CANCELLED => "CANCELLED"
    case REDEEMED => "REDEEMED"
    case REJECTED => "REJECTED"
  }

  function PayloadTypeText(payloadType: PayloadType): string {
    match payloadType
    case ReviewLeaseType => "review_lease"
    case ExecutionPermitType => "execution_permit"
    case ExecutionResultType => "execution_result"
    case ActionReceiptType => "action_receipt"
    case RegistryType => "capability_registry"
    case EvidenceType => "prsp_promotion_evidence"
    case OtherType(text) => Unknown(text)
  }

  lemma UnknownDiffers(text: string, text': string)
    ensures Unknown(text) == Unknown(text') <==> text == text'
  {
    assert Unknown(text)[1..] == text && Unknown(text')[1..] == text';
  }

  lemma VerdictTextsDiffer()
    ensures Injective(VerdictText)
  {
    forall a, a' | VerdictText(a) == VerdictText(a')
      ensures a == a'
    {
      assert |VerdictText(a)| == |VerdictText(a')| && VerdictText(a)[0] == VerdictText(a')[0];
      if a.OtherVerdict? && a'.OtherVerdict? { UnknownDiffers(a.text, a'.text); }
    }
  }

  lemma EffectTextsDiffer()
    ensures Injective(EffectText) && Injective(OutcomeText)
  {
    forall a, a' | EffectText(a) == EffectText(a')
      ensures a == a'
    {
      assert |EffectText(a)| == |EffectText(a')|;
    }
    forall a, a' | OutcomeText(a) == OutcomeText(a')
      ensures a == a'
    {
      assert |OutcomeText(a)| == |OutcomeText(a')|;
    }
  }

  lemma AuthorityTextsDiffer()
    ensures Injective(AuthorityText)
  {
    forall a, a' | AuthorityText(a) == AuthorityText(a')
      ensures a == a'
    {
      assert |AuthorityText(a)| == |AuthorityText(a')| && AuthorityText(a)[0] == AuthorityText(a')[0];
      if a.OtherAuthority? && a'.OtherAuthority? { UnknownDiffers(a.name, a'.name); }
    }
  }

  lemma IssuerTextsDiffer()
    ensures Injective(IssuerText)
  {
    forall a, a' | IssuerText(a) == IssuerText(a')
      ensures a == a'
    {
      assert IssuerText(a)[0] == IssuerText(a')[0];
      if a.OtherIssuer? && a'.OtherIssuer? { UnknownDiffers(a.name, a'.name); }
    }
  }

  lemma EventKindTextsDiffer()
    ensures Injective(EventKindText)
  {
    forall a, a' | EventKindText(a) == EventKindText(a')
      ensures a == a'
    {
      assert |EventKindText(a)| == |EventKindText(a')| && EventKindText(a)[2] == EventKindText(a')[2];
    }
  }

  lemma PayloadTypeTextsDiffer()
    ensures Injective(PayloadTypeText)
  {
    forall a, a' | PayloadTypeText(a) == PayloadTypeText(a')
      ensures a == a'
    {
      assert |PayloadTypeText(a)| == |PayloadTypeText(a')| && PayloadTypeText(a)[0] == PayloadTypeText(a')[0];
      assert !a.OtherType? ==> |PayloadTypeText(a)| > 11 && PayloadTypeText(a)[10] == PayloadTypeText(a')[10];
      if a.OtherType? && a'.OtherType? { UnknownDiffers(a.name, a'.name); }
    }
  }

  // ----- Reasons, times and digests -------------------------------------------------------------

  function FailureCode(failure: EnvelopeFailure): int {
    match failure
    case PayloadHashMismatch => 0 case EnvelopeHashMismatch => 1 case UntrustedSigner => 2 case SignerRevoked => 3
    case SubjectMismatch => 4 case RoleNotAllowed => 5 case PayloadTypeMismatch => 6 case SignatureInvalid => 7
  }

  function RefusalJson(why: LeaseRefusal): Json {
    match why
    case LeaseNotFound => Int(0) case BaseGateIsNotReview => Int(1) case LeaseIsCancelled => Int(2)
    case LeaseAlreadyUsed => Int(3) case LeaseNotYetValid => Int(4) case LeaseExpired => Int(5)
    case RequestDigestMismatch => Int(6) case LeaseScopeMismatch => Int(7) case ReviewPolicyChanged => Int(8)
    case LeasePayloadInvalid => Int(9) case LeaseIssuerMismatch => Int(10)
    case LeaseEnvelopeRejected(failure) => Arr([Int(FailureCode(failure))])
  }

  function ReasonJson(reason: Reason): Json {
    match reason
    case ControlPlaneNotAddressable => Int(0) case NoMatchingGrant => Int(1) case ExplicitDenyPrecedence => Int(2)
    case HumanReviewRequired => Int(3) case ExplicitGrant => Int(4) case NoEffectiveGrant => Int(5)
    case SignedLeaseRedeemed => Int(6) case LeaseRedeemed => Int(7) case AuthorizerUnavailable => Int(8)
    case BrokerUnavailable => Int(9)
    case SignedLeaseRejected(why) => Arr([RefusalJson(why)])
    case LeaseRejected(why) => Arr([Null, RefusalJson(why)])
    case OtherReason(text) => Str(text)
  }

  function ReasonText(reason: Reason): string {
    Print(ReasonJson(reason))
  }

  function EventReasonJson(reason: EventReason): Json {
    match reason
    case LeaseRegistered => Int(0)
    case LeaseUsed => Int(1)
    case LeaseRefused(why) => Arr([RefusalJson(why)])
    case Given(text) => Str(text)
  }

  function EventReasonText(reason: EventReason): string {
    Print(EventReasonJson(reason))
  }

  lemma RefusalsDiffer(why: LeaseRefusal, why': LeaseRefusal)
    requires RefusalJson(why) == RefusalJson(why')
    ensures why == why'
  {
    if why.LeaseEnvelopeRejected? {
      assert RefusalJson(why).items[0] == RefusalJson(why').items[0];
    }
  }

  lemma ReasonTextsDiffer()
    ensures Injective(ReasonText)
  {
    hide Print, RefusalJson;
    forall a, a' | ReasonText(a) == ReasonText(a')
      ensures a == a'
    {
      PrintInjective(ReasonJson(a), ReasonJson(a'));
      assert ReasonJson(a).Arr? ==> |ReasonJson(a).items| == |ReasonJson(a').items|;
      if a.SignedLeaseRejected? && a'.SignedLeaseRejected? {
        assert ReasonJson(a).items[0] == ReasonJson(a').items[0];
        RefusalsDiffer(a.why, a'.why);
      } else if a.LeaseRejected? && a'.LeaseRejected? {
        assert ReasonJson(a).items[1] == ReasonJson(a').items[1];
        RefusalsDiffer(a.why, a'.why);
      }
    }
  }

  lemma EventReasonTextsDiffer()
    ensures Injective(EventReasonText)
  {
    hide Print, RefusalJson;
    forall a, a' | EventReasonText(a) == EventReasonText(a')
      ensures a == a'
    {
      PrintInjective(EventReasonJson(a), EventReasonJson(a'));
      if a.LeaseRefused? && a'.LeaseRefused? {
        assert EventReasonJson(a).items[0] == EventReasonJson(a').items[0];
        RefusalsDiffer(a.why, a'.why);
      }
    }
  }

  function TimeText(time: Time): string {
    Decimal(time)
  }

  lemma TimeTextsDiffer()
    ensures Injective(TimeText)
  {
    forall a, a' | TimeText(a) == TimeText(a')
      ensures a == a'
    {
      DecimalRoundTrip(a);
      DecimalRoundTrip(a');
    }
  }

  function HashText(hashed: string): string {
    ['#'] + hashed
  }

  function OtherMembers(json: Json): seq<Member> {
    [Member("", json)]
  }

  lemma DigestTextsDiffer()
    ensures Injective(HashText) && Injective(Unknown) && forall t, t' :: HashText(t) != Unknown(t')
  {
    forall a, a' | HashText(a) == HashText(a')
      ensures a == a'
    {
      assert HashText(a)[1..] == a && HashText(a')[1..] == a';
    }
    forall a, a' | Unknown(a) == Unknown(a')
      ensures a == a'
    {
      UnknownDiffers(a, a');
    }
    forall t, t'
      ensures HashText(t) != Unknown(t')
    {
      assert HashText(t)[0] != Unknown(t')[0];
    }
  }

  lemma OthersDiffer()
    ensures Injective(OtherMembers)
    ensures forall json, kind :: KeysOf(OtherMembers(json)) != Names(Fields(kind))
  {
    forall a, a' | OtherMembers(a) == OtherMembers(a')
      ensures a == a'
    {
      assert OtherMembers(a)[0] == OtherMembers(a')[0];
    }
    forall json, kind
      ensures KeysOf(OtherMembers(json)) != Names(Fields(kind))
    {
      hide Fields;
      assert |KeysOf(OtherMembers(json))| == 1 && |Names(Fields(kind))| == Size(kind);
    }
  }

  // ----- The spelling ---------------------------------------------------------------------------

  function PlainSpelling(): Spelling {
    Spelling(HashText, Unknown, OtherMembers, TimeText, VerdictText, EffectText, ReasonText, PayloadTypeText,
             AuthorityText, IssuerText, OutcomeText, EventReasonText, EventKindText)
  }

  /** There is a faithful spelling, with the source's keys and enumeration texts. */
  lemma PlainSpellingIsFaithful()
    ensures Faithful(PlainSpelling())
  {
    hide HashText, Unknown, OtherMembers, TimeText, VerdictText, EffectText, ReasonText, PayloadTypeText;
    hide AuthorityText, IssuerText, OutcomeText, EventReasonText, EventKindText, Fields;
    DigestTextsDiffer();
    OthersDiffer();
    TimeTextsDiffer();
    VerdictTextsDiffer();
    EffectTextsDiffer();
    ReasonTextsDiffer();
    PayloadTypeTextsDiffer();
    AuthorityTextsDiffer();
    IssuerTextsDiffer();
    EventReasonTextsDiffer();
    EventKindTextsDiffer();
  }
}
