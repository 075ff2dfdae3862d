/** Rules the pages of the Next.js variant (the app directory) share: the auth redirect
    and render gate, the status filter where `all` means no filter, and the
    lookup tables that turn statuses, methods and billing cycles into the
    Portuguese labels and badge colours they show. A table has no entry for
    a value outside its typed union, and the page then renders nothing
    (`undefined`) in that cell. */
module PageCommon {
  import opened Common
  import opened Types

  const AllFilter := "all"
  const LandingPath := "/"
  const BlankIdError := "Por favor, insira um ID de aplicação"

  /** `statusFilter === "all" ? undefined : statusFilter`. */
  function StatusParam(filter: string): (s: Option<string>)
    ensures s.None? <==> filter == AllFilter
    ensures s.Some? ==> s.value == filter
  {
    if filter == AllFilter then None else Some(filter)
  }

  /** The redirect effect: once auth has settled without a session the page
      moves to the landing page. */
  function RedirectTarget(authLoading: bool, isAuthenticated: bool): (r: Option<string>)
    ensures r.Some? <==> !authLoading && !isAuthenticated
    ensures r.Some? ==> r.value == LandingPath
  {
    if !authLoading && !isAuthenticated then Some(LandingPath) else None
  }

  datatype Shell = AuthSpinner | Nothing | Content

  /** The render gate: a spinner while auth loads, nothing without a
      session, the page otherwise. */
  function ShellView(authLoading: bool, isAuthenticated: bool): (v: Shell)
    ensures v == AuthSpinner <==> authLoading
    ensures v == Nothing <==> !authLoading && !isAuthenticated
    ensures v == Content <==> !authLoading && isAuthenticated
  {
    if authLoading then AuthSpinner
    else if !isAuthenticated then Nothing
    else Content
  }

  /** A page that renders nothing is always on its way out, and a page whose
      content shows never redirects. */
  lemma GateAgreesWithRedirect(authLoading: bool, isAuthenticated: bool)
    ensures ShellView(authLoading, isAuthenticated) == Nothing <==> RedirectTarget(authLoading, isAuthenticated).Some?
    ensures ShellView(authLoading, isAuthenticated) == Content ==> RedirectTarget(authLoading, isAuthenticated).None?
  {
  }

  /** The badge colour classes of the app pages. */
  datatype Tone = SuccessTone | DestructiveTone | WarningTone | MutedTone

  /** `statusLabels` of the payments page and the subscription payments modal. */
  function PaymentStatusLabel(s: PaymentStatus): (r: Option<string>)
    ensures r.Some? <==> s.Typed()
  {
    match s
    case Pending => Some("Pendente")
    case Approved => Some("Aprovado")
    case Rejected => Some("Rejeitado")
    case Cancelled => Some("Cancelado")
    case _ => None
  }

  /** `statusColors` of the same two components. */
  function PaymentStatusTone(s: PaymentStatus): (r: Option<Tone>)
    ensures r.Some? <==> s.Typed()
    ensures r == Some(SuccessTone) <==> s.Approved?
  {
    match s
    case Pending => Some(WarningTone)
    case Approved => Some(SuccessTone)
    case Rejected => Some(DestructiveTone)
    case Cancelled => Some(MutedTone)
    case _ => None
  }

  /** `methodLabels`. */
  function MethodLabel(m: PaymentMethod): (r: Option<string>)
    ensures r.Some? <==> m.Typed()
  {
    match m
    case Pix => Some("PIX")
    case CreditCard => Some("Cartão de Crédito")
    case DebitCard => Some("Cartão de Débito")
    case _ => None
  }

  /** `statusLabels` of the subscriptions page. */
  function SubscriptionStatusLabel(s: SubscriptionStatus): (r: Option<string>)
    ensures r.Some? <==> s.Typed()
  {
    match s
    case Active => Some("Ativa")
    case Cancelled => Some("Cancelada")
    case Suspended => Some("Suspensa")
    case _ => None
  }

  /** `statusColors` of the subscriptions page. */
  function SubscriptionStatusTone(s: SubscriptionStatus): (r: Option<Tone>)
    ensures r.Some? <==> s.Typed()
  {
    match s
    case Active => Some(SuccessTone)
    case Cancelled => Some(DestructiveTone)
    case Suspended => Some(WarningTone)
    case _ => None
  }

  /** `billingCycleLabels` of the subscriptions and renewals pages. */
  function BillingCycleLabel(c: BillingCycle): (r: Option<string>)
    ensures r.Some? <==> !c.Other?
  {
    match c
    case Monthly => Some("Mensal")
    case Quarterly => Some("Trimestral")
    case Yearly => Some("Anual")
    case Other(_) => None
  }

  /** Each table tells its typed values apart: no two typed values share a
      label, so a label on screen names exactly one status, method or cycle. */
  lemma LabelsIdentify(p1: PaymentStatus, p2: PaymentStatus, m1: PaymentMethod, m2: PaymentMethod,
                       s1: SubscriptionStatus, s2: SubscriptionStatus, c1: BillingCycle, c2: BillingCycle)
    ensures p1.Typed() && PaymentStatusLabel(p1) == PaymentStatusLabel(p2) ==> p1 == p2
    ensures m1.Typed() && MethodLabel(m1) == MethodLabel(m2) ==> m1 == m2
    ensures s1.Typed() && SubscriptionStatusLabel(s1) == SubscriptionStatusLabel(s2) ==> s1 == s2
    ensures !c1.Other? && BillingCycleLabel(c1) == BillingCycleLabel(c2) ==> c1 == c2
  {
  }
}
