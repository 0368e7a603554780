/** The webhook query and mutations of
    `features/webhooks/hooks/useWebhookOperations.ts`: the wrappers around the
    create and delete services, the optimistic patches each mutation applies
    to the cached `['webhooks']` list, the rollback to the snapshot on error,
    the invalidation once settled, and the toast each outcome produces.
    `Date.now()`, `new Date().toISOString()` and `Math.random()` are
    parameters; the React Query cache entry is the class `WebhookCache`. */
module WebhookOperations {
  import opened Options
  import opened JsValues
  import opened Decimal
  import opened Sequences
  import opened WebhookTypes
  import opened ApiService

  /** `pathId || undefined` for the form's `path_id` entry, which is `null` when absent. */
  function RequestedPathId(formValue: Option<string>): (r: Option<string>)
    ensures r.Some? <==> formValue.Some? && formValue.value != ""
    ensures r.Some? ==> r == formValue
  {
    if formValue.Some? && formValue.value != "" then formValue else None
  }

  /** The `catch` of both wrappers: `{ success: false, error }` with an
      `Error`'s message, or with the wrapper's own text for anything else thrown. */
  function CaughtFailure(thrown: Thrown, fallback: string): (r: ApiResponse<Json>)
    ensures r.Failure?
    ensures thrown.ErrorObject? ==> r.error == JStr(thrown.message)
    ensures thrown.OtherThrown? ==> r.error == JStr(fallback)
  {
    match thrown
    case ErrorObject(message) => Failure(JStr(message))
    case OtherThrown => Failure(JStr(fallback))
  }

  /** The wrappers `createWebhook(formData)` and `deleteWebhook(pathId)`, given
      how the awaited service call settled and the wrapper's own fallback
      text: each resolves with the service's own result, or with a failure
      carrying the caught message. Neither ever rejects, which the result
      type records. */
  function WrappedCall(call: Outcome<ApiResponse<Json>>, fallback: string): (r: ApiResponse<Json>)
    ensures call.Returns? ==> r == call.value
    ensures call.Throws? ==> r == CaughtFailure(call.thrown, fallback)
  {
    match call
    case Returns(result) => result
    case Throws(t) => CaughtFailure(t, fallback)
  }

  /** The fallback text of the `createWebhook` wrapper. */
  const CreateFallback := "Failed to create webhook"

  /** The fallback text of the `deleteWebhook` wrapper. */
  const DeleteFallback := "Failed to delete webhook"

  /** What `createWebhook(formData)` sends: a POST to `/api/paths` of the client
      service whose body carries `path_id` exactly when the form value is not
      empty. As the service catches everything itself, the wrapper's result is
      the service's result. */
  lemma CreateWebhookRequest(env: Env, formValue: Option<string>, transport: Transport)
    ensures exists body: Json ::
      && WrappedCall(Returns(CreateWebhook(ClientApiService(env), RequestedPathId(formValue), transport)), CreateFallback) ==
           Normalize(transport(env.nextPublicApiUrl + "/api/paths", RequestInit("POST", Some(body))))
      && body.JObj?
      && ("path_id" in body.fields <==> formValue.Some? && formValue.value != "")
      && ("path_id" in body.fields ==> body.fields["path_id"] == JStr(formValue.value))
  {
    ServiceEndpoints(ClientApiService(env), "", "", RequestedPathId(formValue), transport);
  }

  /** The placeholder `onMutate` puts at the head of the list before the
      server answers. `now` is `Date.now()`, `createdIso` and `updatedIso` the
      two `toISOString()` readings, `randomSuffix` the base-36 digits taken
      from `Math.random()`. */
  function OptimisticWebhook(formValue: Option<string>, now: int, createdIso: string, updatedIso: string, randomSuffix: string): (w: WebhookPath)
    ensures w.id == "temp-" + IntToString(now)
    ensures formValue.Some? && formValue.value != "" ==> w.pathId == formValue.value
    ensures !(formValue.Some? && formValue.value != "") ==> w.pathId == "webhook-" + randomSuffix
    ensures w.createdAt == createdIso && w.updatedAt == updatedIso
    ensures w.requestCount == 0 && w.status == None
  {
    var pathId := if formValue.Some? && formValue.value != "" then formValue.value else "webhook-" + randomSuffix;
    WebhookPath("temp-" + IntToString(now), pathId, createdIso, updatedIso, 0, None)
  }

  /** The temporary id records the timestamp it was made at: two placeholders
      made at different times, even with the same path, never share an id, and
      for a non-negative clock the timestamp reads back from the id. */
  lemma OptimisticIdRecordsTime(formValue: Option<string>, now: int, later: int, created: string, updated: string, suffix: string)
    ensures now != later ==>
      OptimisticWebhook(formValue, now, created, updated, suffix).id != OptimisticWebhook(formValue, later, created, updated, suffix).id
    ensures now >= 0 ==>
      var id := OptimisticWebhook(formValue, now, created, updated, suffix).id;
      |id| > 5 && id[..5] == "temp-" && ParseDigits(id[5..]) == now
  {
    var id := OptimisticWebhook(formValue, now, created, updated, suffix).id;
    var id2 := OptimisticWebhook(formValue, later, created, updated, suffix).id;
    if now != later {
      IntToStringInjective(now, later);
      assert id[5..] == IntToString(now);
      assert id2[5..] == IntToString(later);
    }
    if now >= 0 {
      assert id[5..] == NatToString(now);
      ParseNatToString(now);
    }
  }

  /** The create patch: `(old = []) => [optimisticWebhook, ...old]`. */
  function Prepend(cached: Option<seq<WebhookPath>>, w: WebhookPath): seq<WebhookPath> {
    [w] + cached.GetOr([])
  }

  function OtherPath(pathId: string): WebhookPath -> bool {
    (w: WebhookPath) => w.pathId != pathId
  }

  /** The delete patch: `(old = []) => old.filter(w => w.path_id !== pathId)`. */
  function RemovePath(cached: Option<seq<WebhookPath>>, pathId: string): seq<WebhookPath> {
    Filter(cached.GetOr([]), OtherPath(pathId))
  }

  /** The create patch puts the placeholder first and keeps every cached entry
      after it, in order; an empty cache counts as an empty list. */
  lemma PrependSpec(cached: Option<seq<WebhookPath>>, w: WebhookPath)
    ensures var r := Prepend(cached, w);
      && |r| == |cached.GetOr([])| + 1
      && r[0] == w
      && r[1..] == cached.GetOr([])
      && multiset(r) == multiset(cached.GetOr([])) + multiset{w}
    ensures cached == None ==> Prepend(cached, w) == [w]
  {
    var r := Prepend(cached, w);
    assert r[1..] == cached.GetOr([]);
  }

  /** The delete patch removes every entry with the path and keeps every other
      one, in its original order; with an empty cache it yields an empty list,
      and deleting twice is deleting once. */
  lemma RemovePathSpec(cached: Option<seq<WebhookPath>>, pathId: string, before: seq<WebhookPath>, after: seq<WebhookPath>)
    ensures forall w :: w in RemovePath(cached, pathId) <==> w in cached.GetOr([]) && w.pathId != pathId
    ensures forall i :: 0 <= i < |RemovePath(cached, pathId)| ==> RemovePath(cached, pathId)[i].pathId != pathId
    ensures cached == None ==> RemovePath(cached, pathId) == []
    ensures RemovePath(Some(before + after), pathId) == RemovePath(Some(before), pathId) + RemovePath(Some(after), pathId)
    ensures RemovePath(Some(RemovePath(cached, pathId)), pathId) == RemovePath(cached, pathId)
    ensures (forall i :: 0 <= i < |cached.GetOr([])| ==> cached.GetOr([])[i].pathId != pathId) ==>
      RemovePath(cached, pathId) == cached.GetOr([])
  {
    var r := RemovePath(cached, pathId);
    forall i | 0 <= i < |r| ensures r[i].pathId != pathId {
      assert r[i] in r;
    }
    FilterAppend(before, after, OtherPath(pathId));
    FilterIdempotent(cached.GetOr([]), OtherPath(pathId));
    if forall i :: 0 <= i < |cached.GetOr([])| ==> cached.GetOr([])[i].pathId != pathId {
      FilterAllPass(cached.GetOr([]), OtherPath(pathId));
    }
  }

  /** `useWebhooks`' query function: `result.data || []`, so a failed fetch
      shows an empty list rather than an error, and the cached value is never falsy. */
  function WebhooksQueryData(result: ApiResponse<Json>): (r: Json)
    ensures result.Failure? ==> r == JArr([])
    ensures result.Success? && Truthy(Some(result.data)) ==> r == result.data
    ensures result.Success? && !Truthy(Some(result.data)) ==> r == JArr([])
    ensures Truthy(Some(r))
  {
    var data: Value := if result.Success? then Some(result.data) else None;
    OrElse(data, JArr([]))
  }

  /** The description line of a toast: the created path id (shown through a
      template string), the server's error, or a fixed sentence. */
  datatype Description = PathIdOf(pathId: Value) | ErrorText(error: Json) | Sentence(text: string) | NoDescription

  datatype Notice = Notice(variant: string, title: string, description: Description)

  const UnexpectedError := "An unexpected error occurred. Please try again."

  /** The toast of `useCreateWebhook`: `onSuccess` on a resolved mutation,
      `onError` on a rejected one. */
  function CreateNotice(settled: Outcome<ApiResponse<Json>>): (n: Notice)
    ensures n.variant == "success" <==> settled.Returns? && settled.value.Success?
    ensures n.variant != "success" ==> n.variant == "destructive" && n.title == "Failed to create webhook"
    ensures settled.Returns? && settled.value.Success? ==>
      n == Notice("success", "Webhook created successfully", PathIdOf(Field(settled.value.data, "path_id")))
    ensures settled.Returns? && settled.value.Failure? ==> n.description == ErrorText(settled.value.error)
    ensures settled.Throws? ==> n.description == Sentence(UnexpectedError)
  {
    match settled
    case Returns(Success(data)) => Notice("success", "Webhook created successfully", PathIdOf(Field(data, "path_id")))
    case Returns(Failure(error)) => Notice("destructive", "Failed to create webhook", ErrorText(error))
    case Throws(_) => Notice("destructive", "Failed to create webhook", Sentence(UnexpectedError))
  }

  /** The toast of `useDeleteWebhook`; its success toast has no description. */
  function DeleteNotice(settled: Outcome<ApiResponse<Json>>): (n: Notice)
    ensures n.variant == "success" <==> settled.Returns? && settled.value.Success?
    ensures n.variant == "success" ==> n == Notice("success", "Webhook deleted successfully", NoDescription)
    ensures n.variant != "success" ==> n.variant == "destructive" && n.title == "Failed to delete webhook"
    ensures settled.Returns? && settled.value.Failure? ==> n.description == ErrorText(settled.value.error)
    ensures settled.Throws? ==> n.description == Sentence(UnexpectedError)
  {
    match settled
    case Returns(Success(_)) => Notice("success", "Webhook deleted successfully", NoDescription)
    case Returns(Failure(error)) => Notice("destructive", "Failed to delete webhook", ErrorText(error))
    case Throws(_) => Notice("destructive", "Failed to delete webhook", Sentence(UnexpectedError))
  }

  /** The `['webhooks']` entry of the query cache: its data (`None` before
      the first fetch) and whether it has been invalidated. */
  class WebhookCache {
    var webhooks: Option<seq<WebhookPath>>
    var invalidated: bool

    constructor(initial: Option<seq<WebhookPath>>)
      ensures webhooks == initial && !invalidated
    {
      webhooks := initial;
      invalidated := false;
    }

    /** `onMutate` of `useCreateWebhook`: returns the snapshot, then prepends the placeholder. */
    method BeginCreate(formValue: Option<string>, now: int, createdIso: string, updatedIso: string, randomSuffix: string)
      returns (previous: Option<seq<WebhookPath>>)
      modifies this
      ensures previous == old(webhooks)
      ensures webhooks == Some(Prepend(old(webhooks), OptimisticWebhook(formValue, now, createdIso, updatedIso, randomSuffix)))
      ensures invalidated == old(invalidated)
    {
      previous := webhooks;
      webhooks := Some(Prepend(webhooks, OptimisticWebhook(formValue, now, createdIso, updatedIso, randomSuffix)));
    }

    /** `onMutate` of `useDeleteWebhook`: returns the snapshot, then drops the path. */
    method BeginDelete(pathId: string) returns (previous: Option<seq<WebhookPath>>)
      modifies this
      ensures previous == old(webhooks)
      ensures webhooks == Some(RemovePath(old(webhooks), pathId))
      ensures invalidated == old(invalidated)
    {
      previous := webhooks;
      webhooks := Some(RemovePath(webhooks, pathId));
    }

    /** `setQueryData(['webhooks'], context?.previousWebhooks)`. Setting
        `undefined` leaves the entry as it is, so an entry that was empty
        before the mutation keeps its patched value. */
    method Rollback(previous: Option<seq<WebhookPath>>)
      modifies this
      ensures previous.Some? ==> webhooks == previous
      ensures previous.None? ==> webhooks == old(webhooks)
      ensures invalidated == old(invalidated)
    {
      if previous.Some? {
        webhooks := previous;
      }
    }

    /** `invalidateQueries({ queryKey: ['webhooks'] })`: marks the entry for refetching. */
    method Invalidate()
      modifies this
      ensures invalidated && webhooks == old(webhooks)
    {
      invalidated := true;
    }

    /** One run of `useCreateWebhook` whose mutation function settled as
        `settled`: the placeholder stays in place after any resolved result,
        failures with `success: false` included, and the snapshot comes back
        only when the mutation rejects and the entry held data before; the
        entry is invalidated either way. */
    method CreateMutation(formValue: Option<string>, now: int, createdIso: string, updatedIso: string, randomSuffix: string,
                          settled: Outcome<ApiResponse<Json>>)
      returns (notice: Notice)
      modifies this
      ensures notice == CreateNotice(settled)
      ensures settled.Returns? || old(webhooks).None? ==>
        webhooks == Some(Prepend(old(webhooks), OptimisticWebhook(formValue, now, createdIso, updatedIso, randomSuffix)))
      ensures settled.Throws? && old(webhooks).Some? ==> webhooks == old(webhooks)
      ensures invalidated
    {
      var previous := BeginCreate(formValue, now, createdIso, updatedIso, randomSuffix);
      if settled.Throws? {
        Rollback(previous);
      }
      notice := CreateNotice(settled);
      Invalidate();
    }

    /** One run of `useDeleteWebhook`, with the same rollback rule: a rejected
        delete on an empty entry leaves the empty list the patch wrote. */
    method DeleteMutation(pathId: string, settled: Outcome<ApiResponse<Json>>) returns (notice: Notice)
      modifies this
      ensures notice == DeleteNotice(settled)
      ensures settled.Returns? || old(webhooks).None? ==> webhooks == Some(RemovePath(old(webhooks), pathId))
      ensures settled.Throws? && old(webhooks).Some? ==> webhooks == old(webhooks)
      ensures invalidated
    {
      var previous := BeginDelete(pathId);
      if settled.Throws? {
        Rollback(previous);
      }
      notice := DeleteNotice(settled);
      Invalidate();
    }
  }
}
