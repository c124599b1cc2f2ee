/**
 * The payment processor as the core sees it: a log of the calls made to it, each effectful
 * one with its idempotency key. What the processor answers is not decided here; the handlers
 * receive the answers as parameters.
 */
module PaymentProcessor {
  import opened Common

  /** The processor's own payment-intent states. */
  datatype IntentStatus =
    | RequiresPaymentMethod | RequiresConfirmation | RequiresAction
    | IntentProcessing | IntentRequiresCapture | IntentCanceled | IntentSucceeded

  datatype Call =
    | CreateIntent(amount: int, currency: string, key: string)
    | RetrieveIntent(intent: Id)
    | CaptureIntent(intent: Id, key: string)
    | CancelIntent(intent: Id, key: string)
    | ListRefunds(intent: Id)
    | CreateRefund(intent: Id, key: string)
    | CreateTransfer(amount: int, currency: string, destination: Id, key: string)

  /** Calls that move money or change a hold. */
  predicate Effectful(c: Call) {
    c.CreateIntent? || c.CaptureIntent? || c.CancelIntent? || c.CreateRefund? || c.CreateTransfer?
  }

  class Processor {
    var log: seq<Call>

    constructor ()
      ensures log == []
    {
      log := [];
    }

    method CreateIntent(amount: int, currency: string, key: string)
      modifies this
      ensures log == old(log) + [Call.CreateIntent(amount, currency, key)]
    {
      log := log + [Call.CreateIntent(amount, currency, key)];
    }

    method Retrieve(intent: Id)
      modifies this
      ensures log == old(log) + [RetrieveIntent(intent)]
    {
      log := log + [RetrieveIntent(intent)];
    }

    method Capture(intent: Id, key: string)
      modifies this
      ensures log == old(log) + [CaptureIntent(intent, key)]
    {
      log := log + [CaptureIntent(intent, key)];
    }

    method Cancel(intent: Id, key: string)
      modifies this
      ensures log == old(log) + [CancelIntent(intent, key)]
    {
      log := log + [CancelIntent(intent, key)];
    }

    method ListRefundsOf(intent: Id)
      modifies this
      ensures log == old(log) + [ListRefunds(intent)]
    {
      log := log + [ListRefunds(intent)];
    }

    method Refund(intent: Id, key: string)
      modifies this
      ensures log == old(log) + [CreateRefund(intent, key)]
    {
      log := log + [CreateRefund(intent, key)];
    }

    method Transfer(amount: int, currency: string, destination: Id, key: string)
      modifies this
      ensures log == old(log) + [CreateTransfer(amount, currency, destination, key)]
    {
      log := log + [CreateTransfer(amount, currency, destination, key)];
    }
  }
}
