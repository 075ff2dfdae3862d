/** The payments page of the Next.js variant (app/payments/page.tsx): a
    search by application id with a status filter; the table shows the
    fetched list as it came, and a row click opens the payment's details. */
module PaymentsPage {
  import opened Common
  import opened Types
  import opened Text
  import opened Http
  import ApiClient
  import PageCommon

  const SearchError := "Erro ao buscar pagamentos. Verifique o ID da aplicação."

  /** The search request: `all` (or an empty filter) sends no status
      parameter; any other filter is sent verbatim. */
  function SearchRequest(applicationId: string, filter: string): (r: Request)
    ensures r.verb == Get && r.path == "/payments/application/" + applicationId
    ensures "status" in r.params <==> filter != PageCommon.AllFilter && filter != ""
    ensures "status" in r.params ==> r.params["status"] == filter
    ensures forall k :: k in r.params ==> k == "status"
  {
    var e := ApiClient.Endpoint.PaymentsByApplication(applicationId, PageCommon.StatusParam(filter));
    ApiClient.PathIsTemplate(e);
    ApiClient.RequestFor(e)
  }

  class Page {
    var applicationId: string
    var statusFilter: string
    var payments: seq<Payment>
    var isLoading: bool
    var error: string
    var selectedPayment: Option<Payment>
    var modalOpen: bool

    constructor ()
      ensures applicationId == "" && statusFilter == PageCommon.AllFilter && payments == []
      ensures !isLoading && error == "" && selectedPayment == None && !modalOpen
    {
      applicationId := "";
      statusFilter := PageCommon.AllFilter;
      payments := [];
      isLoading := false;
      error := "";
      selectedPayment := None;
      modalOpen := false;
    }

    /** `filteredPayments`: the table shows every fetched payment, in order. */
    function FilteredPayments(): (shown: seq<Payment>)
      reads this
      ensures |shown| == |payments| && forall i :: 0 <= i < |shown| ==> shown[i] == payments[i]
    {
      payments
    }

    /** `handleSearch`: a blank id only sets the prompt error; otherwise the
        search runs and its outcome replaces the list or empties it. */
    method HandleSearch(response: Result<seq<Payment>>) returns (sent: Option<Request>)
      modifies this`error, this`isLoading, this`payments
      ensures IsBlank(applicationId) ==> sent == None && error == PageCommon.BlankIdError
      ensures IsBlank(applicationId) ==> payments == old(payments) && isLoading == old(isLoading)
      ensures !IsBlank(applicationId) ==> sent == Some(SearchRequest(applicationId, statusFilter)) && !isLoading
      ensures !IsBlank(applicationId) && response.Ok? ==> payments == response.value && error == ""
      ensures !IsBlank(applicationId) && response.Err? ==> payments == [] && error == SearchError
    {
      if IsBlank(applicationId) {
        error := PageCommon.BlankIdError;
        return None;
      }
      error := "";
      isLoading := true;
      sent := Some(SearchRequest(applicationId, statusFilter));
      match response {
        case Ok(data) =>
          payments := data;
        case Err(_) =>
          error := SearchError;
          payments := [];
      }
      isLoading := false;
    }

    /** `handleRowClick`: opens the details modal on a payment. */
    method HandleRowClick(payment: Payment)
      modifies this`selectedPayment, this`modalOpen
      ensures selectedPayment == Some(payment) && modalOpen
    {
      selectedPayment := Some(payment);
      modalOpen := true;
    }
  }
}
