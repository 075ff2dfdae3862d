/** The renewals page of the Next.js variant (app/renewals/page.tsx): a
    button fetches the subscriptions due for renewal; each row shows how
    many days remain until its next billing date as a coloured badge. */
module RenewalsPage {
  import opened Common
  import opened Types
  import opened Text
  import opened Http
  import ApiClient
  import PageCommon

  /** `1000 * 60 * 60 * 24`. */
  const MsPerDay := 86400000
  const FetchError := "Erro ao buscar vencimentos. Tente novamente."

  /** `Math.ceil(n / d)` for a positive divisor, from Dafny's floor division. */
  function CeilDiv(n: int, d: int): (q: int)
    requires d > 0
    ensures (q - 1) * d < n <= q * d
  {
    -((-n) / d)
  }

  /** `getDaysUntilRenewal`, with the clock passed in: the number of whole
      or partial days from now until the renewal. */
  function DaysUntilRenewal(renewalMs: int, nowMs: int): (days: int)
    ensures (days - 1) * MsPerDay < renewalMs - nowMs <= days * MsPerDay
  {
    CeilDiv(renewalMs - nowMs, MsPerDay)
  }

  datatype BadgeKind = Overdue | Today | Soon(days: nat) | Later(days: nat)

  /** `getRenewalBadge`: the four branches, which split the integers. */
  function RenewalBadge(days: int): (k: BadgeKind)
    ensures k == Overdue <==> days < 0
    ensures k == Today <==> days == 0
    ensures k.Soon? <==> 1 <= days <= 7
    ensures k.Later? <==> days > 7
    ensures (k.Soon? || k.Later?) ==> k.days == days
  {
    if days < 0 then Overdue
    else if days == 0 then Today
    else if days <= 7 then Soon(days)
    else Later(days)
  }

  function BadgeTone(k: BadgeKind): PageCommon.Tone {
    match k
    case Overdue => PageCommon.DestructiveTone
    case Today => PageCommon.WarningTone
    case Soon(_) => PageCommon.WarningTone
    case Later(_) => PageCommon.MutedTone
  }

  function BadgeText(k: BadgeKind): string {
    match k
    case Overdue => "Vencido"
    case Today => "Hoje"
    case Soon(days) => NatToString(days) + " dias"
    case Later(days) => NatToString(days) + " dias"
  }

  /** The badge a row shows for a renewal date and the current instant. */
  function RowBadge(renewalMs: int, nowMs: int): BadgeKind {
    RenewalBadge(DaysUntilRenewal(renewalMs, nowMs))
  }

  /** By instants: a renewal is overdue once a full day has passed, shows
      today from then until the current instant, and counts days after. */
  lemma BadgeByInstant(renewalMs: int, nowMs: int)
    ensures RowBadge(renewalMs, nowMs) == Overdue <==> renewalMs <= nowMs - MsPerDay
    ensures RowBadge(renewalMs, nowMs) == Today <==> nowMs - MsPerDay < renewalMs <= nowMs
    ensures RowBadge(renewalMs, nowMs).Soon? <==> nowMs < renewalMs <= nowMs + 7 * MsPerDay
    ensures RowBadge(renewalMs, nowMs).Later? <==> renewalMs > nowMs + 7 * MsPerDay
  {
    var days := DaysUntilRenewal(renewalMs, nowMs);
    if days < 0 {
      assert days * MsPerDay <= -MsPerDay;
    } else if days == 0 {
    } else if days <= 7 {
      assert (days - 1) * MsPerDay >= 0;
      assert days * MsPerDay <= 7 * MsPerDay;
    } else {
      assert (days - 1) * MsPerDay >= 7 * MsPerDay;
    }
  }

  /** A renewal overdue by less than a day counts as zero days and reads
      "Hoje", not "Vencido". */
  lemma JustOverdueIsToday(renewalMs: int, nowMs: int)
    requires nowMs - MsPerDay < renewalMs <= nowMs
    ensures DaysUntilRenewal(renewalMs, nowMs) == 0
    ensures BadgeText(RowBadge(renewalMs, nowMs)) == "Hoje"
  {
    BadgeByInstant(renewalMs, nowMs);
  }

  /** The day-count badges print the count: their text is a numeral that
      denotes the days left, followed by " dias". */
  lemma CountTextDenotesDays(days: int)
    requires days > 0
    ensures var t := BadgeText(RenewalBadge(days));
            |t| > 5 && t[|t| - 5..] == " dias" && DigitsValue(t[..|t| - 5]) == days
  {
    var t := BadgeText(RenewalBadge(days));
    NatToStringDenotes(days);
    assert t[..|t| - 5] == NatToString(days);
  }

  class Page {
    var renewals: seq<Subscription>
    var isLoading: bool
    var error: string

    constructor ()
      ensures renewals == [] && !isLoading && error == ""
    {
      renewals := [];
      isLoading := false;
      error := "";
    }

    /** `!isLoading && renewals.length === 0`. */
    predicate ShowsEmptyState()
      reads this
    {
      !isLoading && |renewals| == 0
    }

    /** `renewals.length > 0`. */
    predicate ShowsTable()
      reads this
    {
      |renewals| > 0
    }

    /** State while the fetch is in flight. */
    method BeginFetch()
      modifies this`error, this`isLoading
      ensures error == "" && isLoading
    {
      error := "";
      isLoading := true;
    }

    /** Settles the fetch: the list is the response, or empty with an
        error on failure. */
    method SettleFetch(response: Result<seq<Subscription>>)
      modifies this`renewals, this`error, this`isLoading
      ensures !isLoading
      ensures response.Ok? ==> renewals == response.value && error == old(error)
      ensures response.Err? ==> renewals == [] && error == FetchError
    {
      match response {
        case Ok(data) =>
          renewals := data;
        case Err(_) =>
          error := FetchError;
          renewals := [];
      }
      isLoading := false;
    }

    /** `handleFetchRenewals`: a failed fetch always lands on the empty
        state with the error; a resolved one shows the table exactly when
        something is due. */
    method HandleFetchRenewals(response: Result<seq<Subscription>>) returns (sent: Request)
      modifies this`renewals, this`error, this`isLoading
      ensures sent == ApiClient.RequestFor(ApiClient.Endpoint.RenewalsDue)
      ensures !isLoading
      ensures response.Ok? ==> renewals == response.value && error == ""
      ensures response.Err? ==> renewals == [] && error == FetchError && ShowsEmptyState()
      ensures ShowsTable() <==> response.Ok? && response.value != []
    {
      BeginFetch();
      sent := ApiClient.RequestFor(ApiClient.Endpoint.RenewalsDue);
      SettleFetch(response);
    }
  }
}
