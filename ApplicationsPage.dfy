/** The applications page of the Next.js variant (app/applications/page.tsx):
    a case-insensitive search over the fetched applications and a create
    form that resets to its defaults once the create call succeeds. */
module ApplicationsPage {
  import opened Common
  import opened Sequences
  import opened Types
  import opened Text
  import opened Http
  import ApiClient

  /** The form's initial and reset value. */
  const DefaultForm := ApplicationForm("", "", true)

  /** The filter's test: the lower-cased name or id contains the
      lower-cased term. */
  predicate Matches(app: Application, term: string) {
    Includes(Lower(app.name), Lower(term)) || Includes(Lower(app.id), Lower(term))
  }

  function Filter(apps: seq<Application>, term: string): (kept: seq<Application>)
    ensures |kept| <= |apps|
    decreases |apps|
  {
    if apps == [] then []
    else (if Matches(apps[0], term) then [apps[0]] else []) + Filter(apps[1..], term)
  }

  /** `applications?.filter(...)`: nothing before the first fetch resolves. */
  function FilteredApplications(applications: Option<seq<Application>>, term: string): (r: Option<seq<Application>>)
    ensures r.Some? <==> applications.Some?
  {
    match applications
    case None => None
    case Some(apps) => Some(Filter(apps, term))
  }

  /** An application is kept exactly when it was fetched and matches. */
  lemma {:induction false} FilterMembership(apps: seq<Application>, term: string, a: Application)
    ensures a in Filter(apps, term) <==> a in apps && Matches(a, term)
    decreases |apps|
  {
    if apps != [] {
      FilterMembership(apps[1..], term, a);
      assert apps == [apps[0]] + apps[1..];
    }
  }

  /** The filtered list keeps the fetched order: it is a subsequence. */
  lemma {:induction false} FilterIsSubsequence(apps: seq<Application>, term: string)
    ensures IsSubsequence(Filter(apps, term), apps)
    decreases |apps|
  {
    if apps != [] {
      FilterIsSubsequence(apps[1..], term);
      var rest := Filter(apps[1..], term);
      if Matches(apps[0], term) {
        assert ([apps[0]] + rest)[1..] == rest;
      } else {
        assert [] + rest == rest;
        SubsequenceOfTail(rest, apps[1..], apps[0]);
        assert [apps[0]] + apps[1..] == apps;
      }
    }
  }

  lemma {:induction false} IncludesEmpty(s: string)
    ensures Includes(s, "")
  {
    assert s[..0] == "";
  }

  /** An empty search keeps every application, in order. */
  lemma {:induction false} EmptyTermKeepsAll(apps: seq<Application>)
    ensures Filter(apps, "") == apps
    decreases |apps|
  {
    if apps != [] {
      IncludesEmpty(Lower(apps[0].name));
      assert Lower("") == "";
      EmptyTermKeepsAll(apps[1..]);
      assert [apps[0]] + apps[1..] == apps;
    }
  }

  lemma LowerIdempotent(s: string)
    ensures Lower(Lower(s)) == Lower(s)
  {
  }

  /** The case of the search term makes no difference. */
  lemma {:induction false} FilterIgnoresCase(apps: seq<Application>, term: string)
    ensures Filter(apps, Lower(term)) == Filter(apps, term)
    decreases |apps|
  {
    LowerIdempotent(term);
    if apps != [] {
      FilterIgnoresCase(apps[1..], term);
    }
  }

  class Page {
    var searchTerm: string
    var isCreateOpen: bool
    var formData: ApplicationForm
    var isSubmitting: bool
    /** How many times the list was asked to revalidate (`mutate()`). */
    var revalidations: nat

    constructor ()
      ensures searchTerm == "" && !isCreateOpen && formData == DefaultForm && !isSubmitting && revalidations == 0
    {
      searchTerm := "";
      isCreateOpen := false;
      formData := DefaultForm;
      isSubmitting := false;
      revalidations := 0;
    }

    /** `handleSubmit`: posts the form; a success closes the dialog, resets
        the form and revalidates the list; a failure changes neither. */
    method HandleSubmit(response: Result<Application>) returns (sent: Request)
      modifies this`isCreateOpen, this`formData, this`isSubmitting, this`revalidations
      ensures sent == ApiClient.RequestFor(ApiClient.Endpoint.CreateApplication(old(formData)))
      ensures sent.verb == Post && sent.body == ApplicationBody(old(formData))
      ensures !isSubmitting
      ensures response.Ok? ==> !isCreateOpen && formData == DefaultForm && revalidations == old(revalidations) + 1
      ensures response.Err? ==> isCreateOpen == old(isCreateOpen) && formData == old(formData) && revalidations == old(revalidations)
    {
      isSubmitting := true;
      sent := ApiClient.RequestFor(ApiClient.Endpoint.CreateApplication(formData));
      if response.Ok? {
        isCreateOpen := false;
        formData := DefaultForm;
        revalidations := revalidations + 1;
      }
      isSubmitting := false;
    }
  }
}
