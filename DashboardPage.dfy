/** The dashboard of the Next.js variant (app/dashboard/page.tsx): once the
    session is known to be authenticated it fetches the applications and the
    renewals due, and derives the summary tiles from the two lists. */
module DashboardPage {
  import opened Common
  import opened Types
  import opened Http
  import ApiClient

  /** `DashboardStats`. */
  datatype Stats = Stats(
    totalApplications: nat,
    totalPayments: nat,
    totalSubscriptions: nat,
    renewalsDue: nat,
    recentPayments: seq<Payment>,
    recentSubscriptions: seq<Subscription>)

  const RecentCount := 5

  /** The stats record built from the two lists: counts of what was
      fetched, placeholders of zero and an empty list for what is not, and
      the first five renewals (all of them when fewer). */
  function StatsFrom(applications: seq<Application>, renewals: seq<Subscription>): (s: Stats)
    ensures s.totalApplications == |applications| && s.renewalsDue == |renewals|
    ensures s.totalPayments == 0 && s.totalSubscriptions == 0 && s.recentPayments == []
    ensures |s.recentSubscriptions| == (if |renewals| < RecentCount then |renewals| else RecentCount)
    ensures s.recentSubscriptions <= renewals
  {
    var n := if |renewals| < RecentCount then |renewals| else RecentCount;
    Stats(|applications|, 0, 0, |renewals|, [], renewals[..n])
  }

  /** The tiles: `stats?.field || 0`, so all four read zero before any load. */
  function Tiles(stats: Option<Stats>): (t: (nat, nat, nat, nat))
    ensures stats.None? ==> t == (0, 0, 0, 0)
    ensures stats.Some? ==> t == (stats.value.totalApplications, stats.value.totalPayments,
                                  stats.value.totalSubscriptions, stats.value.renewalsDue)
  {
    match stats
    case None => (0, 0, 0, 0)
    case Some(s) => (s.totalApplications, s.totalPayments, s.totalSubscriptions, s.renewalsDue)
  }

  class Page {
    var stats: Option<Stats>
    var isLoading: bool

    constructor ()
      ensures stats == None && isLoading
    {
      stats := None;
      isLoading := true;
    }

    /** `authLoading || isLoading`: the spinner the page shows first. */
    predicate ShowsSpinner(authLoading: bool)
      reads this
    {
      authLoading || isLoading
    }

    /** `loadDashboardData`: both fetches are issued; only when both resolve
        are the stats replaced, and loading settles either way. */
    method LoadDashboardData(applications: Result<seq<Application>>, renewals: Result<seq<Subscription>>)
      returns (sent: seq<Request>)
      modifies this
      ensures sent == [ApiClient.RequestFor(ApiClient.Endpoint.AllApplications), ApiClient.RequestFor(ApiClient.Endpoint.RenewalsDue)]
      ensures !isLoading
      ensures applications.Ok? && renewals.Ok? ==> stats == Some(StatsFrom(applications.value, renewals.value))
      ensures applications.Err? || renewals.Err? ==> stats == old(stats)
    {
      isLoading := true;
      sent := [ApiClient.RequestFor(ApiClient.Endpoint.AllApplications), ApiClient.RequestFor(ApiClient.Endpoint.RenewalsDue)];
      if applications.Ok? && renewals.Ok? {
        stats := Some(StatsFrom(applications.value, renewals.value));
      }
      isLoading := false;
    }

    /** The effect on `isAuthenticated`: data loads only for an authenticated
        session; otherwise nothing is fetched and the spinner stays up while
        the redirect effect leaves the page. */
    method OnAuthenticationChange(isAuthenticated: bool, applications: Result<seq<Application>>, renewals: Result<seq<Subscription>>)
      returns (sent: seq<Request>)
      modifies this
      ensures !isAuthenticated ==> sent == [] && stats == old(stats) && isLoading == old(isLoading)
      ensures isAuthenticated ==> |sent| == 2 && !isLoading
      ensures isAuthenticated && applications.Ok? && renewals.Ok? ==> stats == Some(StatsFrom(applications.value, renewals.value))
      ensures isAuthenticated && (applications.Err? || renewals.Err?) ==> stats == old(stats)
    {
      sent := [];
      if isAuthenticated {
        sent := LoadDashboardData(applications, renewals);
      }
    }
  }
}
