/** The pure parts of `features/dashboard/ui/RecentActivity.tsx`: the colour
    class of an HTTP method badge and the five-row window with its overflow note. */
module RecentActivity {
  import opened Options
  import opened WebhookTypes
  import opened Text

  const GetColor := "bg-blue-500/10 text-blue-700 dark:text-blue-400"
  const PostColor := "bg-green-500/10 text-green-700 dark:text-green-400"
  const PutColor := "bg-yellow-500/10 text-yellow-700 dark:text-yellow-400"
  const DeleteColor := "bg-red-500/10 text-red-700 dark:text-red-400"
  const PatchColor := "bg-purple-500/10 text-purple-700 dark:text-purple-400"
  const DefaultColor := "bg-gray-500/10 text-gray-700 dark:text-gray-400"

  /** The methods with a colour of their own. */
  predicate IsColouredMethod(upper: string) {
    upper == "GET" || upper == "POST" || upper == "PUT" || upper == "DELETE" || upper == "PATCH"
  }

  /** The switch on the upper-cased method. */
  function ColorOfUpper(upper: string): string {
    if upper == "GET" then GetColor
    else if upper == "POST" then PostColor
    else if upper == "PUT" then PutColor
    else if upper == "DELETE" then DeleteColor
    else if upper == "PATCH" then PatchColor
    else DefaultColor
  }

  /** `getMethodColor(method)`. */
  function GetMethodColor(httpMethod: string): string {
    ColorOfUpper(ToUpper(httpMethod))
  }

  /** The colour ignores letter case. */
  lemma GetMethodColorIgnoresCase(httpMethod: string)
    ensures GetMethodColor(httpMethod) == GetMethodColor(ToUpper(httpMethod))
  {
    ToUpperIdempotent(httpMethod);
  }

  /** The five coloured methods get five different classes, none of them the
      gray default; every other httpMethod, HEAD and OPTIONS among them, gets the
      gray default. */
  lemma MethodColors(httpMethod: string)
    ensures GetMethodColor(httpMethod) == DefaultColor <==> !IsColouredMethod(ToUpper(httpMethod))
    ensures ToUpper(httpMethod) == "GET" ==> GetMethodColor(httpMethod) == GetColor
    ensures ToUpper(httpMethod) == "POST" ==> GetMethodColor(httpMethod) == PostColor
    ensures ToUpper(httpMethod) == "PUT" ==> GetMethodColor(httpMethod) == PutColor
    ensures ToUpper(httpMethod) == "DELETE" ==> GetMethodColor(httpMethod) == DeleteColor
    ensures ToUpper(httpMethod) == "PATCH" ==> GetMethodColor(httpMethod) == PatchColor
    ensures |{GetColor, PostColor, PutColor, DeleteColor, PatchColor, DefaultColor}| == 6
  {
  }

  /** `stats?.recent_requests || []`: an array, even an empty one, is truthy. */
  function RecentRequests(stats: Option<DashboardStats>): (r: seq<CapturedRequest>)
    ensures stats.None? || stats.value.recentRequests.None? ==> r == []
    ensures stats.Some? && stats.value.recentRequests.Some? ==> r == stats.value.recentRequests.value
  {
    if stats.Some? && stats.value.recentRequests.Some? then stats.value.recentRequests.value else []
  }

  /** The number of rows the card shows. */
  const MaxRows: nat := 5

  /** The card's content once loaded. */
  datatype ActivityView =
    | NoRecentActivity
    | Rows(shown: seq<CapturedRequest>, more: Option<nat>)

  /** `recentRequests.slice(0, 5)` and the "And N more requests..." note. */
  function ActivityOf(requests: seq<CapturedRequest>): ActivityView {
    if |requests| == 0 then NoRecentActivity
    else
      var n := if |requests| < MaxRows then |requests| else MaxRows;
      Rows(requests[..n], if |requests| > MaxRows then Some(|requests| - MaxRows) else None)
  }

  /** Empty requests select the empty state; otherwise the rows are exactly
      the first min(5, n) requests in order, and the overflow note appears
      exactly when more than five exist and counts the n - 5 not shown. Rows
      shown plus the overflow count is the total. */
  lemma ActivitySpec(stats: Option<DashboardStats>)
    ensures var requests := RecentRequests(stats);
      && (ActivityOf(requests) == NoRecentActivity <==> requests == [])
      && (ActivityOf(requests).Rows? ==>
            && 0 < |ActivityOf(requests).shown| <= MaxRows
            && ActivityOf(requests).shown == requests[..if |requests| < MaxRows then |requests| else MaxRows]
            && ActivityOf(requests).more == (if |requests| > MaxRows then Some(|requests| - MaxRows) else None)
            && |ActivityOf(requests).shown| + ActivityOf(requests).more.GetOr(0) == |requests|)
  {
  }

  /** Ten requests show the first five and "And 5 more requests...";
      three show all three and no note. */
  lemma ActivityExamples(a: seq<CapturedRequest>)
    requires |a| == 10
    ensures ActivityOf(a) == Rows(a[..5], Some(5))
    ensures ActivityOf(a[..3]) == Rows(a[..3], None)
  {
    assert a[..3][..3] == a[..3];
  }
}
