/** The resources the dashboard mirrors (lib/types.ts and the interfaces of
    src/lib/api-client.ts), with their status, method and billing-cycle
    enumerations. Each enumeration has an `Other` case for a spelling the
    typed unions do not list, because several pages switch on the raw
    string the backend sent. */
module Types {
  import opened Common

  /** Payment status: the four cases of lib/types.ts, plus `refunded` from
      the src variant, plus anything else the backend sends. */
  datatype PaymentStatus = Pending | Approved | Rejected | Cancelled | Refunded | Other(raw: string)
  {
    /** The spelling on the wire. */
    function Name(): string {
      match this
      case Pending => "pending"
      case Approved => "approved"
      case Rejected => "rejected"
      case Cancelled => "cancelled"
      case Refunded => "refunded"
      case Other(raw) => raw
    }

    /** `Other` never carries a spelling that has a case of its own. */
    predicate Canonical() {
      Other? ==> raw !in {"pending", "approved", "rejected", "cancelled", "refunded"}
    }

    /** One of the four statuses the `status` union of lib/types.ts admits. */
    predicate Typed() {
      Pending? || Approved? || Rejected? || Cancelled?
    }

    /** Reads a wire spelling; nothing is lost and the result is canonical. */
    static function Parse(raw: string): (s: PaymentStatus)
      ensures s.Name() == raw && s.Canonical()
    {
      if raw == "pending" then Pending
      else if raw == "approved" then Approved
      else if raw == "rejected" then Rejected
      else if raw == "cancelled" then PaymentStatus.Cancelled
      else if raw == "refunded" then Refunded
      else PaymentStatus.Other(raw)
    }
  }

  /** Payment method: the three cases of lib/types.ts, plus `bank_transfer`
      from the src variant, plus anything else. */
  datatype PaymentMethod = Pix | CreditCard | DebitCard | BankTransfer | Other(raw: string)
  {
    function Name(): string {
      match this
      case Pix => "pix"
      case CreditCard => "credit_card"
      case DebitCard => "debit_card"
      case BankTransfer => "bank_transfer"
      case Other(raw) => raw
    }

    predicate Canonical() {
      Other? ==> raw !in {"pix", "credit_card", "debit_card", "bank_transfer"}
    }

    /** One of the three methods the `method` union of lib/types.ts admits. */
    predicate Typed() {
      Pix? || CreditCard? || DebitCard?
    }

    static function Parse(raw: string): (m: PaymentMethod)
      ensures m.Name() == raw && m.Canonical()
    {
      if raw == "pix" then Pix
      else if raw == "credit_card" then CreditCard
      else if raw == "debit_card" then DebitCard
      else if raw == "bank_transfer" then BankTransfer
      else PaymentMethod.Other(raw)
    }
  }

  /** Subscription status: the three cases of lib/types.ts, plus `expired`
      from the src variant, plus anything else. */
  datatype SubscriptionStatus = Active | Cancelled | Suspended | Expired | Other(raw: string)
  {
    function Name(): string {
      match this
      case Active => "active"
      case Cancelled => "cancelled"
      case Suspended => "suspended"
      case Expired => "expired"
      case Other(raw) => raw
    }

    predicate Canonical() {
      Other? ==> raw !in {"active", "cancelled", "suspended", "expired"}
    }

    /** One of the three statuses the `status` union of lib/types.ts admits. */
    predicate Typed() {
      Active? || Cancelled? || Suspended?
    }

    static function Parse(raw: string): (s: SubscriptionStatus)
      ensures s.Name() == raw && s.Canonical()
    {
      if raw == "active" then Active
      else if raw == "cancelled" then SubscriptionStatus.Cancelled
      else if raw == "suspended" then Suspended
      else if raw == "expired" then Expired
      else SubscriptionStatus.Other(raw)
    }
  }

  datatype BillingCycle = Monthly | Quarterly | Yearly | Other(raw: string)

  /** Parsing a canonical value's spelling gives the value back, so the
      enumerations and their wire spellings are in one-to-one correspondence. */
  lemma ParseInvertsName(p: PaymentStatus, m: PaymentMethod, s: SubscriptionStatus)
    requires p.Canonical() && m.Canonical() && s.Canonical()
    ensures PaymentStatus.Parse(p.Name()) == p
    ensures PaymentMethod.Parse(m.Name()) == m
    ensures SubscriptionStatus.Parse(s.Name()) == s
  {
  }

  /** The values a record can hold: every wire string parses to a canonical
      value, so a record never carries `Other` with a spelling that has a
      case of its own. */
  type WirePaymentStatus = s: PaymentStatus | s.Canonical() witness Pending
  type WirePaymentMethod = m: PaymentMethod | m.Canonical() witness Pix
  type WireSubscriptionStatus = s: SubscriptionStatus | s.Canonical() witness Active

  /** The `method` field is `paymentMethod` here (`method` is a keyword).
      Amounts are exact numbers; `None` is a missing amount (or, in the src
      variant, an empty amount string). */
  datatype Payment = Payment(
    id: string,
    applicationId: string,
    customerId: string,
    amount: Option<real>,
    currency: string,
    paymentMethod: WirePaymentMethod,
    status: WirePaymentStatus,
    description: string,
    subscriptionId: Option<string>,
    createdAt: string)

  /** `nextBillingDate` is the instant it names, in milliseconds since the epoch. */
  datatype Subscription = Subscription(
    id: string,
    applicationId: string,
    customerId: string,
    planName: string,
    amount: Option<real>,
    currency: string,
    billingCycle: BillingCycle,
    status: WireSubscriptionStatus,
    nextBillingDate: int)

  datatype Application = Application(id: string, name: string, apiKey: string, isActive: bool, createdAt: string)

  /** `CreateApplicationRequest`: what the create form posts. */
  datatype ApplicationForm = ApplicationForm(name: string, apiKey: string, isActive: bool)

  /** `AuthResponse` / `LoginResponse`. */
  datatype LoginResponse = LoginResponse(access_token: string)

  /** The variants of the src variant's `Badge` component. */
  datatype BadgeVariant = Default | Secondary | Destructive | Success | Warning | Outline

  /** The buttons a subscription row can offer. */
  datatype RowAction = ShowPayments | Suspend | Cancel
}
