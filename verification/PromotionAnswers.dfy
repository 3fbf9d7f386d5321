/** What a promotion decision tells, and what counts as evidence. */
module PromotionAnswers {
  import opened Envelopes
  import opened KeyOrder
  import opened Promotion
  import opened Records

  // ----- Evidence -------------------------------------------------------------------------------

  /** A simulation is read exactly when its declared gate and all its statuses are known, and then it is what the
      receipt says. */
  lemma ReadSimulationIff(read: StatusReader, receipt: SimulationReceipt, simulation: Simulation)
    ensures ReadSimulation(read, receipt) == Some(simulation) <==>
      && read(receipt.overallGate) == Some(simulation.gate) && simulation.gate != Skipped
      && simulation.runId == receipt.runId && simulation.appId == receipt.appId
      && |simulation.scenarios| == |receipt.results|
      && forall i :: 0 <= i < |receipt.results| ==>
           && simulation.scenarios[i].domain == receipt.results[i].domain
           && read(receipt.results[i].status) == Some(simulation.scenarios[i].status)
  {
    ReadScenariosIff(read, receipt.results, simulation.scenarios);
    hide ReadScenarios;
  }

  ghost predicate ReadsAs(read: StatusReader, results: seq<ScenarioResult>, scenarios: seq<Scenario>) {
    && |scenarios| == |results|
    && forall i :: 0 <= i < |results| ==>
         scenarios[i].domain == results[i].domain && read(results[i].status) == Some(scenarios[i].status)
  }

  lemma {:induction false} ReadScenariosIff(read: StatusReader, results: seq<ScenarioResult>, scenarios: seq<Scenario>)
    ensures ReadScenarios(read, results) == Some(scenarios) <==> ReadsAs(read, results, scenarios)
  {
    if results != [] && scenarios != [] {
      ReadScenariosIff(read, results[1..], scenarios[1..]);
      assert scenarios == [scenarios[0]] + scenarios[1..] && results == [results[0]] + results[1..];
      if ReadsAs(read, results[1..], scenarios[1..]) {
        assert forall i :: 1 <= i < |results| ==> results[i] == results[1..][i - 1];
        assert forall i :: 1 <= i < |scenarios| ==> scenarios[i] == scenarios[1..][i - 1];
      }
    }
  }

  /** Evidence that a trusted issuer signed for a request is about that request exactly when the simulation it carries
      is readable, of the same application, and declares the gate that its results give. */
  lemma SignedEvidence(book: Book, trust: TrustStore, read: StatusReader, readOther: EvidenceReader,
                       request: PromotionRequest, receipt: SimulationReceipt, signer: Signer, signedAt: Time,
                       previous: Option<Digest>, text: string, simulation: Simulation)
    requires Trusts(Policy(trust, Some(PromotionIssuer), Some(EvidenceType)), signer)
    requires var payload := EvidencePayload(Sha256(PromotionBody(request)), request.promotionId, request.appId, receipt,
                                            EvidenceOnly);
      SignatureOf(SignPayload(EvidenceType, payload, signer, signedAt, previous, text)) in book
    ensures var payload := EvidencePayload(Sha256(PromotionBody(request)), request.promotionId, request.appId, receipt,
                                           EvidenceOnly);
      var envelope := SignPayload(EvidenceType, payload, signer, signedAt, previous, text);
      AboutRequest(book, trust, read, readOther, request, envelope, simulation) <==>
        && ReadSimulation(read, receipt) == Some(simulation) && simulation.appId == request.appId
        && simulation.gate == RecomputeGate(simulation.scenarios)
  {
    hide RecomputeGate, ReadSimulation;
  }

  /** The records that the other signers make are no evidence, whoever signed them. */
  lemma OtherRecordsAreNoEvidence(book: Book, trust: TrustStore, read: StatusReader, readOther: EvidenceReader,
                                  request: PromotionRequest, envelope: SignedEnvelope)
    requires Accepted(book, envelope, Policy(trust, Some(PromotionIssuer), Some(EvidenceType)))
    requires !envelope.view.payload.EvidencePayload? && !envelope.view.payload.OtherPayload?
    ensures var d := EvaluatePromotion(book, trust, read, readOther, request, envelope);
      d.verdict == Rejected && (d.reason == AuthorityAttempted || d.reason == DigestMismatch)
  {
    hide ReadEvidence, Judge, PromotionDigest;
    VerifiedIffSigned(book, envelope, EvidencePolicy(trust));
  }

  // ----- Decisions ------------------------------------------------------------------------------

  /** What each decision before the simulation is looked at tells; the last case is that of `JudgeAnswers`. */
  lemma EvaluateAnswers(book: Book, trust: TrustStore, read: StatusReader, readOther: EvidenceReader,
                        request: PromotionRequest, envelope: SignedEnvelope)
    ensures var policy := Policy(trust, Some(PromotionIssuer), Some(EvidenceType));
      var d, evidence :=
        EvaluatePromotion(book, trust, read, readOther, request, envelope),
        EvidenceIn(readOther, envelope.view.payload);
      var signed := Accepted(book, envelope, policy);
      var harmless := signed && evidence.effect == Some(EvidenceOnly);
      var sameDigest := harmless && evidence.requestDigest == Some(Sha256(PromotionBody(request)));
      var sameId := sameDigest && evidence.promotionId == Some(request.promotionId);
      var sameApp := sameId && evidence.appId == Some(request.appId);
      var simulation := if evidence.receipt.None? then None else ReadSimulation(read, evidence.receipt.value);
      if sameApp && simulation.Some? then d == Judge(request, simulation.value)
      else
        && d.verdict == Rejected && d.promotionId == request.promotionId && d.runId == None && d.missing == []
        && d.observed == None
        && match d.reason
           case InvalidEvidence(failure) => VerifyEnvelope(book, envelope, policy).reason == Some(failure)
           case AuthorityAttempted => signed && !harmless
           case DigestMismatch => harmless && !sameDigest
           case PromotionIdMismatch => sameDigest && !sameId
           case AppIdMismatch => sameId && !sameApp
           case InvalidReceipt => sameApp && simulation.None?
           case _ => false
  {
    hide VerifyEnvelope, Accepted, EvidenceIn, ReadSimulation, Judge;
    VerifiedIffSigned(book, envelope, EvidencePolicy(trust));
  }

  /** What each decision on a simulation tells: the run is always named, the gate observed as soon as it is computed,
      and the missing domains are the required ones without a result that counts, in order and each once. */
  lemma JudgeAnswers(request: PromotionRequest, simulation: Simulation)
    ensures var d, computed := Judge(request, simulation), RecomputeGate(simulation.scenarios);
      var sameApp := simulation.appId == request.appId;
      var consistent := sameApp && simulation.gate == computed;
      var covered := consistent && Covered(request, simulation.scenarios);
      && d.promotionId == request.promotionId && d.runId == Some(simulation.runId)
      && (d.observed == if sameApp then Some(computed) else None)
      && (d.missing != [] <==> d.reason == DomainsMissing)
      && Sorted(Itself, d.missing) && DistinctKeys(Itself, d.missing)
      && (d.reason == DomainsMissing ==> forall domain :: domain in d.missing <==>
            domain in request.requiredDomains && domain !in ActiveDomains(simulation.scenarios))
      && match d.reason
         case ReceiptAppIdMismatch => !sameApp && d.verdict == Rejected
         case GateInconsistent(declared, actual) =>
           sameApp && !consistent && declared == simulation.gate && actual == computed && d.verdict == Rejected
         case DomainsMissing => consistent && !covered && d.verdict == Held
         case GateIs(gate) => covered && gate == computed == d.verdict && gate != Passed
         case EvidenceSatisfies => covered && computed == Passed == d.verdict
         case _ => false
  {
    hide RecomputeGate, MissingDomains, Covered, Sorted, DistinctKeys;
    MissingIff(request, simulation.scenarios);
    MissingInOrder(request.requiredDomains, simulation.scenarios);
    EmptyInOrder();
  }

  lemma MissingInOrder(required: seq<string>, scenarios: seq<Scenario>)
    ensures Sorted(Itself, MissingDomains(required, scenarios))
    ensures DistinctKeys(Itself, MissingDomains(required, scenarios))
  {
    SortedSetIs(Without(required, ActiveDomains(scenarios)));
  }

  lemma EmptyInOrder()
    ensures Sorted(Itself, []) && DistinctKeys(Itself, [])
  {
  }
}
