/** The subscriptions page of the Next.js variant (app/subscriptions/page.tsx):
    a search by application id with a status filter, a payments modal per
    row, and a confirmation dialog that cancels or suspends the selected
    subscription and then repeats the search. */
module SubscriptionsPage {
  import opened Common
  import opened Types
  import opened Text
  import opened Http
  import ApiClient
  import PageCommon

  const SearchError := "Erro ao buscar assinaturas. Verifique o ID da aplicação."

  datatype ActionType = CancelAction | SuspendAction

  /** The message of a failed confirmation names the action. */
  function ActionError(a: ActionType): (message: string)
    ensures a == CancelAction ==> message == "Erro ao cancelar assinatura"
    ensures a == SuspendAction ==> message == "Erro ao suspender assinatura"
  {
    "Erro ao " + (if a == CancelAction then "cancelar" else "suspender") + " assinatura"
  }

  /** The call a confirmed action makes. */
  function ActionEndpoint(a: ActionType, subscriptionId: string): ApiClient.Endpoint {
    if a == CancelAction then ApiClient.Endpoint.CancelSubscription(subscriptionId)
    else ApiClient.Endpoint.SuspendSubscription(subscriptionId)
  }

  /** The search request: `all` (or an empty filter) sends no status
      parameter; any other filter is sent verbatim. */
  function SearchRequest(applicationId: string, filter: string): (r: Request)
    ensures r.verb == Get && r.path == "/subscriptions/application/" + applicationId
    ensures "status" in r.params <==> filter != PageCommon.AllFilter && filter != ""
    ensures "status" in r.params ==> r.params["status"] == filter
    ensures forall k :: k in r.params ==> k == "status"
  {
    var e := ApiClient.Endpoint.SubscriptionsByApplication(applicationId, PageCommon.StatusParam(filter));
    ApiClient.PathIsTemplate(e);
    ApiClient.RequestFor(e)
  }

  /** The row buttons here: suspend and cancel for an active subscription
      only, so a suspended one gets none (the Vite variant still offers it
      a cancel). */
  function RowActions(s: SubscriptionStatus): (actions: seq<RowAction>)
    ensures |actions| > 0 && actions[0] == ShowPayments
    ensures Suspend in actions <==> s.Active?
    ensures Cancel in actions <==> s.Active?
  {
    if s.Active? then [ShowPayments, Suspend, Cancel] else [ShowPayments]
  }

  /** On a status read from the wire, the buttons follow the source's string
      test `subscription.status === "active"`. */
  lemma RowActionsByWireStatus(s: WireSubscriptionStatus)
    ensures Suspend in RowActions(s) <==> s.Name() == "active"
    ensures Cancel in RowActions(s) <==> s.Name() == "active"
  {
  }

  class Page {
    var applicationId: string
    var statusFilter: string
    var subscriptions: seq<Subscription>
    var isLoading: bool
    var error: string
    var selectedSubscription: Option<Subscription>
    var paymentsModalOpen: bool
    var actionDialogOpen: bool
    var actionType: Option<ActionType>
    var actionLoading: bool

    constructor ()
      ensures applicationId == "" && statusFilter == PageCommon.AllFilter && subscriptions == []
      ensures !isLoading && error == "" && selectedSubscription == None
      ensures !paymentsModalOpen && !actionDialogOpen && actionType == None && !actionLoading
    {
      applicationId := "";
      statusFilter := PageCommon.AllFilter;
      subscriptions := [];
      isLoading := false;
      error := "";
      selectedSubscription := None;
      paymentsModalOpen := false;
      actionDialogOpen := false;
      actionType := None;
      actionLoading := false;
    }

    /** `handleSearch`: a blank id only sets the prompt error; otherwise the
        search runs and its outcome replaces the list or empties it. */
    method HandleSearch(response: Result<seq<Subscription>>) returns (sent: Option<Request>)
      modifies this`error, this`isLoading, this`subscriptions
      ensures IsBlank(applicationId) ==> sent == None && error == PageCommon.BlankIdError
      ensures IsBlank(applicationId) ==> subscriptions == old(subscriptions) && isLoading == old(isLoading)
      ensures !IsBlank(applicationId) ==> sent == Some(SearchRequest(applicationId, statusFilter)) && !isLoading
      ensures !IsBlank(applicationId) && response.Ok? ==> subscriptions == response.value && error == ""
      ensures !IsBlank(applicationId) && response.Err? ==> subscriptions == [] && error == SearchError
    {
      if IsBlank(applicationId) {
        error := PageCommon.BlankIdError;
        return None;
      }
      error := "";
      isLoading := true;
      sent := Some(SearchRequest(applicationId, statusFilter));
      match response {
        case Ok(data) =>
          subscriptions := data;
        case Err(_) =>
          error := SearchError;
          subscriptions := [];
      }
      isLoading := false;
    }

    /** Opens the payments modal on a row. */
    method HandleViewPayments(subscription: Subscription)
      modifies this`selectedSubscription, this`paymentsModalOpen
      ensures selectedSubscription == Some(subscription) && paymentsModalOpen
    {
      selectedSubscription := Some(subscription);
      paymentsModalOpen := true;
    }

    /** Opens the confirmation dialog for an action on a row. */
    method HandleAction(subscription: Subscription, action: ActionType)
      modifies this`selectedSubscription, this`actionType, this`actionDialogOpen
      ensures selectedSubscription == Some(subscription) && actionType == Some(action) && actionDialogOpen
    {
      selectedSubscription := Some(subscription);
      actionType := Some(action);
      actionDialogOpen := true;
    }

    /** `confirmAction`: without a selected subscription and action nothing
        happens. Otherwise the action call is made; when it succeeds the
        search is repeated (with its own outcome) and the dialog closes,
        which always happens because the search never throws; when it fails
        only the error naming the action is set and the dialog stays. */
    method ConfirmAction(actionResponse: Result<Subscription>, searchResponse: Result<seq<Subscription>>)
      returns (sent: seq<Request>)
      modifies this`actionLoading, this`error, this`isLoading, this`subscriptions, this`actionDialogOpen
      ensures old(selectedSubscription).None? || old(actionType).None? ==>
        sent == [] && actionLoading == old(actionLoading) && error == old(error) && isLoading == old(isLoading)
        && subscriptions == old(subscriptions) && actionDialogOpen == old(actionDialogOpen)
      ensures old(selectedSubscription).Some? && old(actionType).Some? ==>
        |sent| >= 1 && sent[0] == ApiClient.RequestFor(ActionEndpoint(actionType.value, selectedSubscription.value.id)) && !actionLoading
      ensures old(selectedSubscription).Some? && old(actionType).Some? && actionResponse.Err? ==>
        |sent| == 1 && error == ActionError(actionType.value) && actionDialogOpen == old(actionDialogOpen)
        && subscriptions == old(subscriptions) && isLoading == old(isLoading)
      ensures old(selectedSubscription).Some? && old(actionType).Some? && actionResponse.Ok? ==> !actionDialogOpen
      ensures old(selectedSubscription).Some? && old(actionType).Some? && actionResponse.Ok? && IsBlank(applicationId) ==>
        |sent| == 1 && error == PageCommon.BlankIdError && subscriptions == old(subscriptions)
      ensures old(selectedSubscription).Some? && old(actionType).Some? && actionResponse.Ok? && !IsBlank(applicationId) ==>
        sent == [sent[0], SearchRequest(applicationId, statusFilter)] && !isLoading
        && (searchResponse.Ok? ==> subscriptions == searchResponse.value && error == "")
        && (searchResponse.Err? ==> subscriptions == [] && error == SearchError)
    {
      if selectedSubscription.None? || actionType.None? {
        return [];
      }
      actionLoading := true;
      var call := ApiClient.RequestFor(ActionEndpoint(actionType.value, selectedSubscription.value.id));
      sent := [call];
      if actionResponse.Ok? {
        var search := HandleSearch(searchResponse);
        if search.Some? {
          sent := sent + [search.value];
        }
        actionDialogOpen := false;
      } else {
        error := ActionError(actionType.value);
      }
      actionLoading := false;
    }
  }
}
