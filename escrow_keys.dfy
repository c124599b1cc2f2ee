/**
 * Idempotency keys sent with every processor call that has an effect.
 * `Key` is the shared helper of the payment handlers and of the escrow unwind;
 * the reconciliation sweep builds its own keys inline (`SweepKey`), with other prefixes.
 */
module EscrowKeys {
  import opened Common

  datatype Operation = PaymentIntent | Capture | Cancel | Refund | Transfer

  function Prefix(op: Operation): string {
    match op
    case PaymentIntent => "escrow_pi_"
    case Capture => "escrow_capture_"
    case Cancel => "escrow_cancel_"
    case Refund => "escrow_refund_"
    case Transfer => "escrow_transfer_"
  }

  /** The key of operation `op` on campaign `campaignId`. */
  function Key(op: Operation, campaignId: Id): (k: string)
    ensures |k| == |Prefix(op)| + |campaignId|
    ensures k[..|Prefix(op)|] == Prefix(op) && k[|Prefix(op)|..] == campaignId
  {
    Prefix(op) + campaignId
  }

  predicate StartsWith(s: string, p: string) {
    |p| <= |s| && s[..|p|] == p
  }

  /** Reads a key back into the operation and the campaign id it was derived from. */
  function Parse(k: string): Option<(Operation, Id)> {
    if StartsWith(k, Prefix(PaymentIntent)) then Some((PaymentIntent, k[|Prefix(PaymentIntent)|..]))
    else if StartsWith(k, Prefix(Capture)) then Some((Capture, k[|Prefix(Capture)|..]))
    else if StartsWith(k, Prefix(Cancel)) then Some((Cancel, k[|Prefix(Cancel)|..]))
    else if StartsWith(k, Prefix(Refund)) then Some((Refund, k[|Prefix(Refund)|..]))
    else if StartsWith(k, Prefix(Transfer)) then Some((Transfer, k[|Prefix(Transfer)|..]))
    else None
  }

  /** A key of `op` never starts with the prefix of another operation. */
  lemma {:induction false} PrefixesExclusive(op: Operation, other: Operation, id: Id)
    requires op != other
    ensures !StartsWith(Key(op, id), Prefix(other))
  {
    var k := Key(op, id);
    var p, q := Prefix(op), Prefix(other);
    assert k[..|p|] == p;
    // Every two prefixes differ at one of the positions 7 or 9, both inside both prefixes.
    var i := if p[7] != q[7] then 7 else 9;
    assert p[i] != q[i];
    assert k[i] == p[i];
  }

  /** Parsing a derived key gives back its operation and campaign id. */
  lemma {:induction false} ParseKey(op: Operation, id: Id)
    ensures Parse(Key(op, id)) == Some((op, id))
  {
    var k := Key(op, id);
    assert StartsWith(k, Prefix(op));
    forall other | other != op
      ensures !StartsWith(k, Prefix(other))
    {
      PrefixesExclusive(op, other, id);
    }
  }

  /** Two keys are equal only when both the operation and the campaign are. */
  lemma {:induction false} KeyInjective(op1: Operation, id1: Id, op2: Operation, id2: Id)
    requires Key(op1, id1) == Key(op2, id2)
    ensures op1 == op2 && id1 == id2
  {
    ParseKey(op1, id1);
    ParseKey(op2, id2);
  }

  /** On one campaign, different operations never share a key. */
  lemma {:induction false} KeysDistinctByOperation(id: Id, op1: Operation, op2: Operation)
    requires op1 != op2
    ensures Key(op1, id) != Key(op2, id)
  {
    if Key(op1, id) == Key(op2, id) {
      KeyInjective(op1, id, op2, id);
    }
  }

  /** For one operation, different campaigns never share a key. */
  lemma {:induction false} KeysDistinctByCampaign(op: Operation, id1: Id, id2: Id)
    requires id1 != id2
    ensures Key(op, id1) != Key(op, id2)
  {
    if Key(op, id1) == Key(op, id2) {
      KeyInjective(op, id1, op, id2);
    }
  }

  /** The operations the reconciliation sweep keys by itself. */
  datatype SweepOperation = SweepCancel | SweepRefund | SweepTransfer

  function SweepPrefix(op: SweepOperation): string {
    match op
    case SweepCancel => "cancel_"
    case SweepRefund => "refund_"
    case SweepTransfer => "transfer_"
  }

  /** The key the sweep sends for `op` on campaign `campaignId`. */
  function SweepKey(op: SweepOperation, campaignId: Id): (k: string)
    ensures |k| == |SweepPrefix(op)| + |campaignId|
    ensures k[..|SweepPrefix(op)|] == SweepPrefix(op) && k[|SweepPrefix(op)|..] == campaignId
  {
    SweepPrefix(op) + campaignId
  }

  /**
   * The sweep's keys never coincide with the handlers' keys, whatever the campaigns:
   * the processor cannot recognise a sweep call and a handler call for the same logical
   * operation as one request.
   */
  lemma {:induction false} SweepKeyNeverEscrowKey(sop: SweepOperation, id1: Id, op: Operation, id2: Id)
    ensures SweepKey(sop, id1) != Key(op, id2)
  {
    assert SweepKey(sop, id1)[0] == SweepPrefix(sop)[0];
    assert Key(op, id2)[0] == Prefix(op)[0] == 'e';
  }

  /** Sweep keys, too, determine their operation and campaign. */
  lemma {:induction false} SweepKeyInjective(op1: SweepOperation, id1: Id, op2: SweepOperation, id2: Id)
    requires SweepKey(op1, id1) == SweepKey(op2, id2)
    ensures op1 == op2 && id1 == id2
  {
    var k := SweepKey(op1, id1);
    assert k[0] == SweepPrefix(op1)[0] == SweepPrefix(op2)[0];
    assert op1 == op2;
    assert id1 == k[|SweepPrefix(op1)|..] == id2;
  }
}
