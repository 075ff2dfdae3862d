/** The subscription payments modal of the Next.js variant
    (components/subscription-payments-modal.tsx): opened on a subscription,
    it fetches that subscription's payments and shows a spinner, a table or
    an empty message. */
module SubscriptionPaymentsModal {
  import opened Common
  import opened Types
  import opened Http
  import ApiClient
  import PageCommon

  /** What the modal renders: nothing at all without a subscription. */
  datatype View = Nothing | Spinner | PaymentTable | EmptyMessage

  function ViewOf(subscription: Option<Subscription>, isLoading: bool, payments: seq<Payment>): (v: View)
    ensures v == Nothing <==> subscription.None?
    ensures v == Spinner <==> subscription.Some? && isLoading
    ensures v == PaymentTable <==> subscription.Some? && !isLoading && |payments| > 0
    ensures v == EmptyMessage <==> subscription.Some? && !isLoading && payments == []
  {
    if subscription.None? then Nothing
    else if isLoading then Spinner
    else if |payments| > 0 then PaymentTable
    else EmptyMessage
  }

  /** `payment.id.substring(0, 8)`: the first eight characters, or the whole
      id when it is shorter. */
  function IdPrefix(id: string): (p: string)
    ensures p <= id
    ensures |p| == (if |id| < 8 then |id| else 8)
  {
    if |id| < 8 then id else id[..8]
  }

  /** One table row, as far as it is not formatting of numbers or dates. */
  datatype Row = Row(
    idPrefix: string,
    description: string,
    methodLabel: Option<string>,
    statusLabel: Option<string>,
    statusTone: Option<PageCommon.Tone>)

  function RowOf(p: Payment): (r: Row)
    ensures r.idPrefix <= p.id && r.description == p.description
    ensures r.methodLabel.Some? <==> p.paymentMethod.Typed()
    ensures r.statusLabel.Some? <==> p.status.Typed()
    ensures r.statusTone.Some? <==> p.status.Typed()
  {
    Row(IdPrefix(p.id), p.description, PageCommon.MethodLabel(p.paymentMethod),
        PageCommon.PaymentStatusLabel(p.status), PageCommon.PaymentStatusTone(p.status))
  }

  /** The request `loadPayments` issues for a subscription. */
  function PaymentsRequest(s: Subscription): (r: Request)
    ensures r.verb == Get && r.body == NoBody && r.params == map[]
    ensures r.path == "/payments/subscription/" + s.id
  {
    var e := ApiClient.Endpoint.PaymentsBySubscription(s.id);
    ApiClient.PathIsTemplate(e);
    ApiClient.RequestFor(e)
  }

  class Modal {
    var payments: seq<Payment>
    var isLoading: bool

    constructor ()
      ensures payments == [] && !isLoading
    {
      payments := [];
      isLoading := false;
    }

    /** `loadPayments`: without a subscription nothing happens; otherwise
        the fetch is issued, a success replaces the list, a failure keeps
        the previous one, and loading settles either way. */
    method LoadPayments(subscription: Option<Subscription>, response: Result<seq<Payment>>)
      returns (sent: Option<Request>)
      modifies this
      ensures subscription.None? ==> sent == None && payments == old(payments) && isLoading == old(isLoading)
      ensures subscription.Some? ==> sent == Some(PaymentsRequest(subscription.value)) && !isLoading
      ensures subscription.Some? && response.Ok? ==> payments == response.value
      ensures subscription.Some? && response.Err? ==> payments == old(payments)
    {
      if subscription.None? {
        return None;
      }
      isLoading := true;
      sent := Some(PaymentsRequest(subscription.value));
      if response.Ok? {
        payments := response.value;
      }
      isLoading := false;
    }

    /** The effect on `open` and `subscription`: the payments load only
        while the modal is open on a subscription. */
    method OnPropsChange(open: bool, subscription: Option<Subscription>, response: Result<seq<Payment>>)
      returns (sent: Option<Request>)
      modifies this
      ensures sent.Some? <==> open && subscription.Some?
      ensures sent.Some? ==> sent.value.path == "/payments/subscription/" + subscription.value.id
      ensures !(open && subscription.Some?) ==> payments == old(payments) && isLoading == old(isLoading)
      ensures open && subscription.Some? && response.Ok? ==> payments == response.value
      ensures open && subscription.Some? && response.Err? ==> payments == old(payments)
      ensures open && subscription.Some? ==> ViewOf(subscription, isLoading, payments) != Spinner
    {
      sent := None;
      if open && subscription.Some? {
        sent := LoadPayments(subscription, response);
      }
    }
  }
}
