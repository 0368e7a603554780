/** The entities the dashboard exchanges with its backend. */
module WebhookTypes {
  import opened Options

  /** The `status` of a webhook path. */
  datatype WebhookStatus = Active | Paused | Errored {
    /** The string the backend sends for this status. */
    function Name(): string {
      match this
      case Active => "active"
      case Paused => "paused"
      case Errored => "error"
    }
  }

  /** A webhook path as cached by the list query. `status` is optional because
      the optimistic entry the create mutation inserts carries none. */
  datatype WebhookPath = WebhookPath(
    id: string,
    pathId: string,
    createdAt: string,
    updatedAt: string,
    requestCount: int,
    status: Option<WebhookStatus>)

  /** The field the webhook list is sorted by. */
  datatype SortKey = CreatedAt | RequestCount | UpdatedAt

  datatype SortOrder = Asc | Desc

  /** The webhook list's view filters. `status` is `string | null` in the
      source and absent from the initial value; `None` covers both. */
  datatype WebhookFilters = WebhookFilters(
    status: Option<string>,
    search: string,
    sortBy: SortKey,
    sortOrder: SortOrder)

  /** A captured HTTP request, as the dashboard statistics embed it. */
  datatype CapturedRequest = CapturedRequest(
    id: string,
    pathId: string,
    httpMethod: string,
    headers: map<string, string>,
    body: Option<string>,
    queryParams: map<string, string>,
    ipAddress: Option<string>,
    userAgent: Option<string>,
    timestamp: string,
    statusCode: Option<int>,
    responseTime: Option<int>)

  /** The dashboard statistics payload. Each field may be missing from the response. */
  datatype DashboardStats = DashboardStats(
    totalWebhooks: Option<int>,
    totalRequests: Option<int>,
    activeWebhooks: Option<int>,
    recentRequests: Option<seq<CapturedRequest>>)
}
