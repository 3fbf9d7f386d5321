/** The keys of the hashed dictionaries, numbered in alphabetical order. */
module FieldNames {
  import opened KeyOrder

  type Field = n: nat | n < 83

  const ACTION: Field := 0
  const ACTIONS: Field := 1
  const ACTOR: Field := 2
  const ADDED: Field := 3
  const APP_ID: Field := 4
  const APP_STAGE: Field := 5
  const AUTHORITY_EFFECT: Field := 6
  const BASELINE: Field := 7
  const BASELINE_REGISTRY_DIGEST: Field := 8
  const CAPABILITY: Field := 9
  const CAPABILITY_DELTA: Field := 10
  const CHANGED: Field := 11
  const CREATED_AT: Field := 12
  const DIGEST: Field := 13
  const DOMAIN: Field := 14
  const EFFECT: Field := 15
  const ENVELOPE_HASH: Field := 16
  const ENVELOPE_VERSION: Field := 17
  const EVENT: Field := 18
  const EVENT_VERSION: Field := 19
  const EVIDENCE_REQUIRED: Field := 20
  const EXECUTED_AT: Field := 21
  const EXPIRES_AT: Field := 22
  const GATE: Field := 23
  const GATE_REASON: Field := 24
  const GATE_VERDICT: Field := 25
  const GENERATED_AT: Field := 26
  const GRANT_ID: Field := 27
  const GRANTS: Field := 28
  const HAS_AUTHORITY_CHANGE: Field := 29
  const HAS_POSSIBLE_AUTHORITY_EXPANSION: Field := 30
  const ISSUED_AT: Field := 31
  const ISSUED_BY: Field := 32
  const ISSUER_TYPE: Field := 33
  const KEY_ID: Field := 34
  const LEASE_ID: Field := 35
  const MATCHED_GRANT_IDS: Field := 36
  const MAX_USES: Field := 37
  const NOTE: Field := 38
  const OUTCOME: Field := 39
  const OVERALL_GATE: Field := 40
  const PAYLOAD: Field := 41
  const PAYLOAD_HASH: Field := 42
  const PAYLOAD_TYPE: Field := 43
  const PERMIT_HASH: Field := 44
  const PERMIT_ID: Field := 45
  const PERMIT_VERSION: Field := 46
  const PREVIOUS_ENVELOPE_HASH: Field := 47
  const PREVIOUS_EVENT_HASH: Field := 48
  const PREVIOUS_RECEIPT_HASH: Field := 49
  const PROMOTION_ID: Field := 50
  const PROMOTION_REQUEST_DIGEST: Field := 51
  const PROPOSED: Field := 52
  const PROPOSED_REGISTRY_DIGEST: Field := 53
  const PRSP_RECEIPT: Field := 54
  const REASON: Field := 55
  const RECEIPT_HASH: Field := 56
  const RECEIPT_VERSION: Field := 57
  const REGISTRY_ID: Field := 58
  const REGISTRY_VERSION: Field := 59
  const REMOVED: Field := 60
  const REQUEST_DIGEST: Field := 61
  const REQUEST_ID: Field := 62
  const REQUESTED_BY: Field := 63
  const REQUIRED_DOMAINS: Field := 64
  const RESOURCE: Field := 65
  const RESOURCES: Field := 66
  const RESULT: Field := 67
  const RESULT_ID: Field := 68
  const RESULT_VERSION: Field := 69
  const RESULTS: Field := 70
  const REVIEW_GRANT_IDS: Field := 71
  const RUN_ID: Field := 72
  const SCENARIO_ID: Field := 73
  const SEVERITY: Field := 74
  const SIGNATURE: Field := 75
  const SIGNATURE_ALGORITHM: Field := 76
  const SIGNED_AT: Field := 77
  const SIGNER_ID: Field := 78
  const STATUS: Field := 79
  const SUMMARY: Field := 80
  const TARGET_STAGE: Field := 81
  const VERSION: Field := 82

  function Keys0(field: Field): string {
    match field
    case 0 => "action" case 1 => "actions" case 2 => "actor" case 3 => "added" case 4 => "app_id"
    case 5 => "app_stage" case 6 => "authority_effect" case 7 => "baseline" case 8 => "baseline_registry_digest"
    case 9 => "capability" case 10 => "capability_delta" case _ => "changed"
  }

  function Keys12(field: Field): string {
    match field
    case 12 => "created_at" case 13 => "digest" case 14 => "domain" case 15 => "effect" case 16 => "envelope_hash"
    case 17 => "envelope_version" case 18 => "event" case 19 => "event_version" case 20 => "evidence_required"
    case 21 => "executed_at" case 22 => "expires_at" case _ => "gate"
  }

  function Keys24(field: Field): string {
    match field
    case 24 => "gate_reason" case 25 => "gate_verdict" case 26 => "generated_at" case 27 => "grant_id"
    case 28 => "grants" case 29 => "has_authority_change" case 30 => "has_possible_authority_expansion"
    case 31 => "issued_at" case 32 => "issued_by" case 33 => "issuer_type" case 34 => "key_id" case _ => "lease_id"
  }

  function Keys36(field: Field): string {
    match field
    case 36 => "matched_grant_ids" case 37 => "max_uses" case 38 => "note" case 39 => "outcome"
    case 40 => "overall_gate" case 41 => "payload" case 42 => "payload_hash" case 43 => "payload_type"
    case 44 => "permit_hash" case 45 => "permit_id" case 46 => "permit_version" case _ => "previous_envelope_hash"
  }

  function Keys48(field: Field): string {
    match field
    case 48 => "previous_event_hash" case 49 => "previous_receipt_hash" case 50 => "promotion_id"
    case 51 => "promotion_request_digest" case 52 => "proposed" case 53 => "proposed_registry_digest"
    case 54 => "prsp_receipt" case 55 => "reason" case 56 => "receipt_hash" case 57 => "receipt_version"
    case 58 => "registry_id" case _ => "registry_version"
  }

  function Keys60(field: Field): string {
    match field
    case 60 => "removed" case 61 => "request_digest" case 62 => "request_id" case 63 => "requested_by"
    case 64 => "required_domains" case 65 => "resource" case 66 => "resources" case 67 => "result"
    case 68 => "result_id" case 69 => "result_version" case 70 => "results" case _ => "review_grant_ids"
  }

  function Keys72(field: Field): string {
    match field
    case 72 => "run_id" case 73 => "scenario_id" case 74 => "severity" case 75 => "signature"
    case 76 => "signature_algorithm" case 77 => "signed_at" case 78 => "signer_id" case 79 => "status"
    case 80 => "summary" case 81 => "target_stage" case _ => "version"
  }

  /** The key under which a dictionary has the field. */
  function FieldName(field: Field): string {
    if field < 12 then Keys0(field)
    else if field < 24 then Keys12(field)
    else if field < 36 then Keys24(field)
    else if field < 48 then Keys36(field)
    else if field < 60 then Keys48(field)
    else if field < 72 then Keys60(field)
    else Keys72(field)
  }

  lemma FirstDifference(a: string, b: string, k: nat)
    requires k <= |a| && k < |b| && a[..k] == b[..k] && (k == |a| || a[k] < b[k])
    ensures Before(a, b)
  {
    if k > 0 {
      assert a[..k][0] == b[..k][0];
      assert a[1..][..k - 1] == a[..k][1..] && b[1..][..k - 1] == b[..k][1..];
      FirstDifference(a[1..], b[1..], k - 1);
    }
  }

  lemma Ordered0(n: nat)
    requires 0 <= n < 6
    ensures Before(FieldName(n), FieldName(n + 1))
  {
    hide Before;
    match n {
      case 0 => FirstDifference("action", "actions", 6);
      case 1 => FirstDifference("actions", "actor", 3);
      case 2 => FirstDifference("actor", "added", 1);
      case 3 => FirstDifference("added", "app_id", 1);
      case 4 => FirstDifference("app_id", "app_stage", 4);
      case _ => FirstDifference("app_stage", "authority_effect", 1);
    }
  }

  lemma Ordered6(n: nat)
    requires 6 <= n < 12
    ensures Before(FieldName(n), FieldName(n + 1))
  {
    hide Before;
    match n {
      case 6 => FirstDifference("authority_effect", "baseline", 0);
      case 7 => FirstDifference("baseline", "baseline_registry_digest", 8);
      case 8 => FirstDifference("baseline_registry_digest", "capability", 0);
      case 9 => FirstDifference("capability", "capability_delta", 10);
      case 10 => FirstDifference("capability_delta", "changed", 1);
      case _ => FirstDifference("changed", "created_at", 1);
    }
  }

  lemma Ordered12(n: nat)
    requires 12 <= n < 18
    ensures Before(FieldName(n), FieldName(n + 1))
  {
    hide Before;
    match n {
      case 12 => FirstDifference("created_at", "digest", 0);
      case 13 => FirstDifference("digest", "domain", 1);
      case 14 => FirstDifference("domain", "effect", 0);
      case 15 => FirstDifference("effect", "envelope_hash", 1);
      case 16 => FirstDifference("envelope_hash", "envelope_version", 9);
      case _ => FirstDifference("envelope_version", "event", 1);
    }
  }

  lemma Ordered18(n: nat)
    requires 18 <= n < 24
    ensures Before(FieldName(n), FieldName(n + 1))
  {
    hide Before;
    match n {
      case 18 => FirstDifference("event", "event_version", 5);
      case 19 => FirstDifference("event_version", "evidence_required", 2);
      case 20 => FirstDifference("evidence_required", "executed_at", 1);
      case 21 => FirstDifference("executed_at", "expires_at", 2);
      case 22 => FirstDifference("expires_at", "gate", 0);
      case _ => FirstDifference("gate", "gate_reason", 4);
    }
  }

  lemma Ordered24(n: nat)
    requires 24 <= n < 30
    ensures Before(FieldName(n), FieldName(n + 1))
  {
    hide Before;
    match n {
      case 24 => FirstDifference("gate_reason", "gate_verdict", 5);
      case 25 => FirstDifference("gate_verdict", "generated_at", 1);
      case 26 => FirstDifference("generated_at", "grant_id", 1);
      case 27 => FirstDifference("grant_id", "grants", 5);
      case 28 => FirstDifference("grants", "has_authority_change", 0);
      case _ => FirstDifference("has_authority_change", "has_possible_authority_expansion", 4);
    }
  }

  lemma Ordered30(n: nat)
    requires 30 <= n < 36
    ensures Before(FieldName(n), FieldName(n + 1))
  {
    hide Before;
    match n {
      case 30 => FirstDifference("has_possible_authority_expansion", "issued_at", 0);
      case 31 => FirstDifference("issued_at", "issued_by", 7);
      case 32 => FirstDifference("issued_by", "issuer_type", 5);
      case 33 => FirstDifference("issuer_type", "key_id", 0);
      case 34 => FirstDifference("key_id", "lease_id", 0);
      case _ => FirstDifference("lease_id", "matched_grant_ids", 0);
    }
  }

  lemma Ordered36(n: nat)
    requires 36 <= n < 42
    ensures Before(FieldName(n), FieldName(n + 1))
  {
    hide Before;
    match n {
      case 36 => FirstDifference("matched_grant_ids", "max_uses", 2);
      case 37 => FirstDifference("max_uses", "note", 0);
      case 38 => FirstDifference("note", "outcome", 0);
      case 39 => FirstDifference("outcome", "overall_gate", 1);
      case 40 => FirstDifference("overall_gate", "payload", 0);
      case _ => FirstDifference("payload", "payload_hash", 7);
    }
  }

  lemma Ordered42(n: nat)
    requires 42 <= n < 48
    ensures Before(FieldName(n), FieldName(n + 1))
  {
    hide Before;
    match n {
      case 42 => FirstDifference("payload_hash", "payload_type", 8);
      case 43 => FirstDifference("payload_type", "permit_hash", 1);
      case 44 => FirstDifference("permit_hash", "permit_id", 7);
      case 45 => FirstDifference("permit_id", "permit_version", 7);
      case 46 => FirstDifference("permit_version", "previous_envelope_hash", 1);
      case _ => FirstDifference("previous_envelope_hash", "previous_event_hash", 10);
    }
  }

  lemma Ordered48(n: nat)
    requires 48 <= n < 54
    ensures Before(FieldName(n), FieldName(n + 1))
  {
    hide Before;
    match n {
      case 48 => FirstDifference("previous_event_hash", "previous_receipt_hash", 9);
      case 49 => FirstDifference("previous_receipt_hash", "promotion_id", 2);
      case 50 => FirstDifference("promotion_id", "promotion_request_digest", 10);
      case 51 => FirstDifference("promotion_request_digest", "proposed", 3);
      case 52 => FirstDifference("proposed", "proposed_registry_digest", 8);
      case _ => FirstDifference("proposed_registry_digest", "prsp_receipt", 2);
    }
  }

  lemma Ordered54(n: nat)
    requires 54 <= n < 60
    ensures Before(FieldName(n), FieldName(n + 1))
  {
    hide Before;
    match n {
      case 54 => FirstDifference("prsp_receipt", "reason", 0);
      case 55 => FirstDifference("reason", "receipt_hash", 2);
      case 56 => FirstDifference("receipt_hash", "receipt_version", 8);
      case 57 => FirstDifference("receipt_version", "registry_id", 2);
      case 58 => FirstDifference("registry_id", "registry_version", 9);
      case _ => FirstDifference("registry_version", "removed", 2);
    }
  }

  lemma Ordered60(n: nat)
    requires 60 <= n < 66
    ensures Before(FieldName(n), FieldName(n + 1))
  {
    hide Before;
    match n {
      case 60 => FirstDifference("removed", "request_digest", 2);
      case 61 => FirstDifference("request_digest", "request_id", 8);
      case 62 => FirstDifference("request_id", "requested_by", 7);
      case 63 => FirstDifference("requested_by", "required_domains", 4);
      case 64 => FirstDifference("required_domains", "resource", 2);
      case _ => FirstDifference("resource", "resources", 8);
    }
  }

  lemma Ordered66(n: nat)
    requires 66 <= n < 72
    ensures Before(FieldName(n), FieldName(n + 1))
  {
    hide Before;
    match n {
      case 66 => FirstDifference("resources", "result", 3);
      case 67 => FirstDifference("result", "result_id", 6);
      case 68 => FirstDifference("result_id", "result_version", 7);
      case 69 => FirstDifference("result_version", "results", 6);
      case 70 => FirstDifference("results", "review_grant_ids", 2);
      case _ => FirstDifference("review_grant_ids", "run_id", 1);
    }
  }

  lemma Ordered72(n: nat)
    requires 72 <= n < 78
    ensures Before(FieldName(n), FieldName(n + 1))
  {
    hide Before;
    match n {
      case 72 => FirstDifference("run_id", "scenario_id", 0);
      case 73 => FirstDifference("scenario_id", "severity", 1);
      case 74 => FirstDifference("severity", "signature", 1);
      case 75 => FirstDifference("signature", "signature_algorithm", 9);
      case 76 => FirstDifference("signature_algorithm", "signed_at", 4);
      case _ => FirstDifference("signed_at", "signer_id", 5);
    }
  }

  lemma Ordered78(n: nat)
    requires 78 <= n < 82
    ensures Before(FieldName(n), FieldName(n + 1))
  {
    hide Before;
    match n {
      case 78 => FirstDifference("signer_id", "status", 1);
      case 79 => FirstDifference("status", "summary", 1);
      case 80 => FirstDifference("summary", "target_stage", 0);
      case _ => FirstDifference("target_stage", "version", 0);
    }
  }

  /** Each key is before the next. */
  lemma NextName(n: nat)
    requires n + 1 < 83
    ensures Before(FieldName(n), FieldName(n + 1))
  {
    hide FieldName;
    if n < 6 {
      Ordered0(n);
    } else if n < 12 {
      Ordered6(n);
    } else if n < 18 {
      Ordered12(n);
    } else if n < 24 {
      Ordered18(n);
    } else if n < 30 {
      Ordered24(n);
    } else if n < 36 {
      Ordered30(n);
    } else if n < 42 {
      Ordered36(n);
    } else if n < 48 {
      Ordered42(n);
    } else if n < 54 {
      Ordered48(n);
    } else if n < 60 {
      Ordered54(n);
    } else if n < 66 {
      Ordered60(n);
    } else if n < 72 {
      Ordered66(n);
    } else if n < 78 {
      Ordered72(n);
    } else {
      Ordered78(n);
    }
  }

  /** The keys are in the order of their numbers. */
  lemma {:induction false} NamesInOrder(f: Field, g: Field)
    requires f < g
    ensures Before(FieldName(f), FieldName(g))
  {
    hide FieldName;
    NextName(g - 1);
    if f + 1 < g {
      NamesInOrder(f, g - 1);
      BeforeTransitive(FieldName(f), FieldName(g - 1), FieldName(g));
    }
  }

  /** Different fields have different keys. */
  lemma NamesDiffer(f: Field, g: Field)
    ensures FieldName(f) == FieldName(g) <==> f == g
  {
    hide FieldName;
    BeforeTotal(FieldName(f), FieldName(g));
    if f < g {
      NamesInOrder(f, g);
    } else if g < f {
      NamesInOrder(g, f);
    }
  }
}
