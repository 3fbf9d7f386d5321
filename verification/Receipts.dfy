/** Hash-chained action receipts. */
module Receipts {
  import opened Envelopes
  import opened JsonValues
  import opened Records

  function CreateReceipt(request: ActionRequest, decision: GateDecision, registryId: string, registryVersion: string,
                         outcome: Outcome, result: Json, previous: Option<Digest>, createdAt: Time): ActionReceipt
  {
    var body := ReceiptBody(request.requestId, request.capability, request.action, request.resource, decision.verdict,
                            decision.reason, decision.matchedGrantIds, outcome, result, registryId, registryVersion,
                            createdAt, previous);
    ActionReceipt(body, Sha256(ReceiptHashBody(body)))
  }

  function SignReceipt(receipt: ActionReceipt, signer: Signer, signedAt: Time, previous: Option<Digest>, text: string)
    : SignedEnvelope
  {
    SignPayload(ActionReceiptType, ReceiptPayload(receipt), signer, signedAt, previous, text)
  }

  function LastReceiptHash(previous: Option<Digest>, receipts: seq<ActionReceipt>): Option<Digest> {
    if |receipts| == 0 then previous else Some(receipts[|receipts| - 1].receiptHash)
  }

  /** Every receipt carries the hash of its body and names the hash of the one before it. */
  ghost predicate ReceiptChain(receipts: seq<ActionReceipt>, previous: Option<Digest>) {
    forall i :: 0 <= i < |receipts| ==>
      && receipts[i].receiptHash == Sha256(ReceiptHashBody(receipts[i].body))
      && receipts[i].body.previousReceiptHash == LastReceiptHash(previous, receipts[..i])
  }

  lemma ReceiptChainAppend(receipts: seq<ActionReceipt>, receipt: ActionReceipt, previous: Option<Digest>)
    requires ReceiptChain(receipts, previous)
    requires receipt.receiptHash == Sha256(ReceiptHashBody(receipt.body))
    requires receipt.body.previousReceiptHash == LastReceiptHash(previous, receipts)
    ensures ReceiptChain(receipts + [receipt], previous)
  {
    var longer := receipts + [receipt];
    forall i | 0 <= i < |longer|
      ensures longer[i].receiptHash == Sha256(ReceiptHashBody(longer[i].body))
      ensures longer[i].body.previousReceiptHash == LastReceiptHash(previous, longer[..i])
    {
      assert longer[..i] == if i < |receipts| then receipts[..i] else receipts;
    }
  }
}
