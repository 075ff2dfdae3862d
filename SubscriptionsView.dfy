/** The subscriptions page of the Vite variant (src/pages/Subscriptions.tsx):
    a table whose rows carry a status badge and per-status action buttons,
    a single expandable payments panel, and cancel/suspend calls that
    refresh the list when they succeed. */
module SubscriptionsView {
  import opened Common
  import opened Types
  import opened Http
  import SrcApiClient

  /** `getStatusVariant`. */
  function StatusVariant(s: SubscriptionStatus): (v: BadgeVariant)
    ensures v == Success <==> s.Active?
    ensures v == Destructive <==> s.Cancelled?
    ensures v == Warning <==> s.Suspended?
    ensures v == Secondary <==> s.Expired? || s.Other?
  {
    match s
    case Active => Success
    case Cancelled => Destructive
    case Suspended => Warning
    case Expired => Secondary
    case Other(_) => Secondary
  }

  /** `getStatusLabel`: an unknown status is shown as it came. */
  function StatusLabel(s: SubscriptionStatus): (text: string)
    ensures s.Other? ==> text == s.raw
  {
    match s
    case Active => "Ativa"
    case Cancelled => "Cancelada"
    case Suspended => "Suspensa"
    case Expired => "Expirada"
    case Other(raw) => raw
  }

  /** On the wire: the label repeats the status the backend sent exactly
      when that status is not one of the four known ones. */
  lemma StatusLabelIsRawIffUnknown(raw: string)
    ensures StatusLabel(SubscriptionStatus.Parse(raw)) == raw <==> SubscriptionStatus.Parse(raw).Other?
  {
  }

  /** `getPaymentStatusVariant`. */
  function PaymentVariant(s: PaymentStatus): (v: BadgeVariant)
    ensures v == Success <==> s.Approved?
    ensures v == Warning <==> s.Pending?
    ensures v == Destructive <==> !(s.Approved? || s.Pending?)
  {
    match s
    case Approved => Success
    case Pending => Warning
    case _ => Destructive
  }

  /** `getPaymentStatusLabel`: every status but approved and pending,
      cancelled and refunded included, reads as rejected. */
  function PaymentLabel(s: PaymentStatus): (text: string)
    ensures text == "Rejeitado" <==> !(s.Approved? || s.Pending?)
  {
    match s
    case Approved => "Aprovado"
    case Pending => "Pendente"
    case _ => "Rejeitado"
  }

  /** The panel's badge colour and text always agree. */
  lemma PaymentBadgeAgrees(s: PaymentStatus)
    ensures PaymentVariant(s) == Success <==> PaymentLabel(s) == "Aprovado"
    ensures PaymentVariant(s) == Warning <==> PaymentLabel(s) == "Pendente"
    ensures PaymentVariant(s) == Destructive <==> PaymentLabel(s) == "Rejeitado"
  {
  }

  /** The buttons of a row, in order: payments always; suspend and cancel
      for an active subscription; cancel alone for a suspended one. */
  function OfferedActions(s: SubscriptionStatus): (actions: seq<RowAction>)
    ensures |actions| > 0 && actions[0] == ShowPayments
    ensures Suspend in actions <==> s.Active?
    ensures Cancel in actions <==> s.Active? || s.Suspended?
  {
    match s
    case Active => [ShowPayments, Suspend, Cancel]
    case Suspended => [ShowPayments, Cancel]
    case _ => [ShowPayments]
  }

  /** On a status read from the wire, the buttons follow the source's string
      tests `status === 'active'` and `status === 'suspended'`. */
  lemma ActionsByWireStatus(s: WireSubscriptionStatus)
    ensures Suspend in OfferedActions(s) <==> s.Name() == "active"
    ensures Cancel in OfferedActions(s) <==> s.Name() == "active" || s.Name() == "suspended"
  {
  }

  class Panel {
    /** The one subscription whose payments panel is open, if any. */
    var showPayments: Option<string>
    var subscriptionPayments: seq<Payment>
    var paymentsLoading: bool
    /** The subscription whose cancel or suspend call is in flight. */
    var actionLoading: Option<string>
    /** How many times the list was asked to revalidate. */
    var refreshes: nat

    constructor ()
      ensures showPayments == None && subscriptionPayments == [] && !paymentsLoading
      ensures actionLoading == None && refreshes == 0
    {
      showPayments := None;
      subscriptionPayments := [];
      paymentsLoading := false;
      actionLoading := None;
      refreshes := 0;
    }

    predicate IsOpen(subscriptionId: string)
      reads this
    {
      showPayments == Some(subscriptionId)
    }

    /** A row's action buttons are disabled while its own call is in flight. */
    predicate ActionDisabled(subscriptionId: string)
      reads this
    {
      actionLoading == Some(subscriptionId)
    }

    /** `handleViewPayments`: the open row's button closes its panel without
        a request; any other row fetches, and only a resolved fetch replaces
        the list and moves the panel to that row. */
    method HandleViewPayments(subscriptionId: string, response: Result<seq<Payment>>)
      returns (sent: Option<Request>)
      modifies this`showPayments, this`subscriptionPayments, this`paymentsLoading
      ensures old(IsOpen(subscriptionId)) ==> sent == None && showPayments == None
      ensures old(IsOpen(subscriptionId)) ==> subscriptionPayments == old(subscriptionPayments) && paymentsLoading == old(paymentsLoading)
      ensures !old(IsOpen(subscriptionId)) ==> sent == Some(SrcApiClient.RequestOf(SrcApiClient.PaymentsBySubscription(subscriptionId))) && !paymentsLoading
      ensures !old(IsOpen(subscriptionId)) && response.Ok? ==> subscriptionPayments == response.value && (forall id :: IsOpen(id) <==> id == subscriptionId)
      ensures !old(IsOpen(subscriptionId)) && response.Err? ==> subscriptionPayments == old(subscriptionPayments) && showPayments == old(showPayments)
    {
      if showPayments == Some(subscriptionId) {
        showPayments := None;
        return None;
      }
      paymentsLoading := true;
      sent := Some(SrcApiClient.RequestOf(SrcApiClient.PaymentsBySubscription(subscriptionId)));
      if response.Ok? {
        subscriptionPayments := response.value;
        showPayments := Some(subscriptionId);
      }
      paymentsLoading := false;
    }

    /** Marks a row busy before its call. */
    method BeginAction(subscriptionId: string)
      modifies this`actionLoading
      ensures actionLoading == Some(subscriptionId) && ActionDisabled(subscriptionId)
    {
      actionLoading := Some(subscriptionId);
    }

    /** The `try`/`finally` after the call: a revalidation only on success,
        and no row busy either way. */
    method SettleAction(outcome: Result<Subscription>)
      modifies this`actionLoading, this`refreshes
      ensures actionLoading == None
      ensures refreshes == old(refreshes) + (if outcome.Ok? then 1 else 0)
    {
      if outcome.Ok? {
        refreshes := refreshes + 1;
      }
      actionLoading := None;
    }

    /** `handleCancel`: PUT `/subscriptions/{id}/cancel`. */
    method HandleCancel(subscriptionId: string, response: Result<Subscription>) returns (sent: Request)
      modifies this`actionLoading, this`refreshes
      ensures sent == SrcApiClient.RequestOf(SrcApiClient.Cancel(subscriptionId)) && sent.verb == Put
      ensures actionLoading == None
      ensures refreshes == old(refreshes) + (if response.Ok? then 1 else 0)
    {
      BeginAction(subscriptionId);
      sent := SrcApiClient.RequestOf(SrcApiClient.Cancel(subscriptionId));
      SettleAction(response);
    }

    /** `handleSuspend`: PUT `/subscriptions/{id}/suspend`. */
    method HandleSuspend(subscriptionId: string, response: Result<Subscription>) returns (sent: Request)
      modifies this`actionLoading, this`refreshes
      ensures sent == SrcApiClient.RequestOf(SrcApiClient.Suspend(subscriptionId)) && sent.verb == Put
      ensures actionLoading == None
      ensures refreshes == old(refreshes) + (if response.Ok? then 1 else 0)
    {
      BeginAction(subscriptionId);
      sent := SrcApiClient.RequestOf(SrcApiClient.Suspend(subscriptionId));
      SettleAction(response);
    }
  }
}
