/**
 The invoice row and its two ways of changing state: the admin transitions, governed by
 `CanTransitionTo`, and the payment path, which bypasses that table.
 */
module InvoiceLifecycle {
  import opened Common
  import opened LineItems

  datatype InvoiceState = Draft | Open | Paid | Void | Uncollectible

  predicate IsTerminal(s: InvoiceState) {
    s.Paid? || s.Void? || s.Uncollectible?
  }

  predicate CanTransitionTo(s: InvoiceState, next: InvoiceState) {
    match (s, next)
    case (Draft, Open) => true
    case (Draft, Void) => true
    case (Open, Paid) => true
    case (Open, Void) => true
    case (Open, Uncollectible) => true
    case _ => false
  }

  datatype Invoice = Invoice(
    business: Id,
    customer: Id,
    state: InvoiceState,
    items: seq<LineItem>,
    total: Cents,
    finalizedAt: Option<Time>,
    paidAt: Option<Time>,
    voidedAt: Option<Time>,
    version: nat)

  /** The conditional update of `invoice_repo::transition`; a row not in `from` is left alone. */
  function AdminUpdate(inv: Invoice, from: InvoiceState, to: InvoiceState, now: Time): Invoice {
    if inv.state != from then inv
    else inv.(state := to,
              version := inv.version + 1,
              finalizedAt := if to.Open? then Some(now) else inv.finalizedAt,
              voidedAt := if to.Void? then Some(now) else inv.voidedAt)
  }

  /** The payment path's own update: open becomes paid, anything else is left alone. */
  function PaymentUpdate(inv: Invoice, now: Time): Invoice {
    if inv.state.Open? then inv.(state := Paid, paidAt := Some(now), version := inv.version + 1)
    else inv
  }

  /** How the timestamps and the version record the path an invoice took. */
  predicate PathRecorded(inv: Invoice) {
    && (inv.paidAt.Some? <==> inv.state.Paid?)
    && (inv.voidedAt.Some? <==> inv.state.Void?)
    && match inv.state
       case Draft => inv.version == 0 && inv.finalizedAt.None?
       case Open => inv.version == 1 && inv.finalizedAt.Some?
       case Paid => inv.version == 2 && inv.finalizedAt.Some?
       case Uncollectible => inv.version == 2 && inv.finalizedAt.Some?
       case Void => inv.version == if inv.finalizedAt.Some? then 2 else 1
  }

  /** The row holds the exact worth of its items. */
  ghost predicate PricedExactly(inv: Invoice) {
    Acceptable(inv.items) && inv.total == Total(inv.items) && inv.total >= 0
  }

  /** What no update of an invoice row ever touches, and the only way its state may move. */
  predicate Succeeds(inv: Invoice, next: Invoice) {
    && next.business == inv.business && next.customer == inv.customer
    && next.items == inv.items && next.total == inv.total
    && (next == inv || CanTransitionTo(inv.state, next.state))
  }
}
