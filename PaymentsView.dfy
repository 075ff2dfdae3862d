/** The payments page of the Vite variant (src/pages/Payments.tsx): a
    status badge per payment and the choice of what the page body shows. */
module PaymentsView {
  import opened Types

  /** `getStatusVariant`. */
  function StatusVariant(s: PaymentStatus): (v: BadgeVariant)
    ensures v == Success <==> s.Approved?
    ensures v == Warning <==> s.Pending?
    ensures v == Destructive <==> s.Rejected? || s.Cancelled?
    ensures v == Secondary <==> s.Refunded? || s.Other?
  {
    match s
    case Approved => Success
    case Pending => Warning
    case Rejected => Destructive
    case Cancelled => Destructive
    case _ => Secondary
  }

  /** `getStatusLabel`: an unknown status, `refunded` included, is shown as
      it came. */
  function StatusLabel(s: PaymentStatus): (text: string)
    ensures s.Refunded? || s.Other? ==> text == s.Name()
  {
    match s
    case Approved => "Aprovado"
    case Pending => "Pendente"
    case Rejected => "Rejeitado"
    case Cancelled => "Cancelado"
    case _ => s.Name()
  }

  /** On the wire: the label repeats the status the backend sent exactly
      when the badge is the neutral one. */
  lemma LabelIsRawIffSecondary(raw: string)
    ensures StatusLabel(PaymentStatus.Parse(raw)) == raw <==> StatusVariant(PaymentStatus.Parse(raw)) == Secondary
  {
  }

  datatype Display = ErrorCard | Prompt | Spinner | EmptyList | PaymentTable

  /** The page body: the error card before anything else; without a
      selected application the prompt; then the spinner, the empty message
      or the table. */
  function DisplayBranch(hasError: bool, selectedAppId: string, isLoading: bool, payments: seq<Payment>): (d: Display)
    ensures d == ErrorCard <==> hasError
    ensures d == Prompt <==> !hasError && selectedAppId == ""
    ensures d == Spinner <==> !hasError && selectedAppId != "" && isLoading
    ensures d == EmptyList <==> !hasError && selectedAppId != "" && !isLoading && payments == []
    ensures d == PaymentTable <==> !hasError && selectedAppId != "" && !isLoading && payments != []
  {
    if hasError then ErrorCard
    else if selectedAppId == "" then Prompt
    else if isLoading then Spinner
    else if |payments| == 0 then EmptyList
    else PaymentTable
  }
}
