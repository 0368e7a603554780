# callback-listener frontend kernels in Dafny

This project models the deterministic kernels of the callback-listener
Next.js dashboard and proves what each of them promises. It covers:

- **the toast store** (`use-toast.ts`): the ADD/UPDATE/DISMISS/REMOVE reducer with its limit of five toasts, the `genId` counter that wraps at `Number.MAX_SAFE_INTEGER`, and the id, `open` and variant defaulting of `toast`, `success` and `error`;
- **the webhook list** (`WebhookList.tsx`): the status and search filters, the in-place sort of the copied list by the chosen key and direction, and the empty-state choice;
- **the webhook mutations** (`useWebhookOperations.ts`):
  - the create and delete wrappers;
  - the optimistic placeholder and the delete filter applied to the cached `['webhooks']` list;
  - the rollback to the snapshot when the mutation rejects;
  - invalidation once the mutation settles;
  - the toast for each outcome;
  - the `result.data || []` fallback of the list query;
- **the REST client** (`client-api.service.ts`, and `api.service.ts`, which repeats it line for line over another base URL):
  - URL joining;
  - folding HTTP errors, `success: false` envelopes and thrown errors into one `ApiResponse`;
  - unwrapping `data.data || data`;
  - the `post` body rule and the endpoint of every service;
  - the `getLogs` query string and pagination mapping;
- **the filter store** (`webhookStore.ts`): the initial filters, the shallow-merge `setFilters`, `resetFilters`, and the `partialize` projection;
- **`cn` and the `main` class** (`AppLayout.tsx`);
- **`getMethodColor` and the five-row window** of `RecentActivity.tsx`.

Layout, one module per source file, plus shared helpers:

| file | module | models |
|---|---|---|
| `options.dfy` | `Options` | an optional value (`undefined` or an absent key is `None`) |
| `decimal.dfy` | `Decimal` | `Number.prototype.toString()` for integers, with a parser proving it injective |
| `sequences.dfy` | `Sequences` | `Array.prototype.map` and `filter` over sequences |
| `text.dfy` | `Text` | ASCII `toLowerCase`/`toUpperCase`, `includes`, `join(' ')`, and reading a class attribute as tokens |
| `js_values.dfy` | `JsValues` | parsed JSON values, truthiness, `\|\|`, and property access that throws on `null`/`undefined` |
| `webhook_types.dfy` | `WebhookTypes` | `WebhookPath`, `WebhookFilters`, `CapturedRequest`, the dashboard stats |
| `toast.dfy` | `Toast` | `use-toast.ts` |
| `webhook_list.dfy` | `WebhookList` | `WebhookList.tsx` |
| `webhook_operations.dfy` | `WebhookOperations` | `useWebhookOperations.ts` |
| `api_service.dfy` | `ApiService` | `client-api.service.ts` and `api.service.ts` |
| `webhook_store.dfy` | `WebhookStore` | `webhookStore.ts` |
| `app_layout.dfy` | `AppLayout` | `AppLayout.tsx` |
| `recent_activity.dfy` | `RecentActivity` | `RecentActivity.tsx` |

How each kind of source code is modelled:

- **Pure code** is written as functions: the reducer, the filter steps, the envelope mapping, `cn` and `getMethodColor`.
- **Code that updates state in place** is written as classes:
  - `IdCounter` holds the module-level `count` behind `genId`;
  - `ToastHook` holds the hook's state;
  - `WebhookCache` holds the query-cache entry;
  - `FilterStore` holds the zustand store;
  - `SearchParams` is the `URLSearchParams` that `getLogs` appends to.
- **The list sort** keeps its in-place form: `SortInPlace` sorts a fresh array copied from the filtered list.
- **Inputs from outside the program** are parameters:
  - `fetch` is a `Transport` function from URL and request options to a `FetchOutcome`, where an HTTP response is `(status, ok, parsed body)`;
  - `Date.now()`, `new Date().toISOString()` and `Math.random()` are the `now`, `createdIso`/`updatedIso` and `randomSuffix` parameters of the optimistic create;
  - how a mutation settled is the `settled` parameter of `CreateMutation` and `DeleteMutation`.

Both services are one datatype, `ApiService.ApiClient(baseUrl)`, with `Request`, `Get`, `Post`, `Put` and `Delete` as members. `ClientApiService` builds it from `NEXT_PUBLIC_API_URL` and `ServerApiService` from `API_URL`. The resource services and `GetLogs` take the client as a parameter, so one definition serves both files. `ServerRequestRules` and `ServerGetLogs` instantiate it for the server file.

## Model

| member | source | states |
|---|---|---|
| Toast.AddToastSpec | frontend/components/ui/use-toast.ts:59-63 | ADD_TOAST puts the new toast at index 0, the length is min(5, n + 1), and the tail is the first min(4, n) previous toasts in their order, so the oldest are dropped |
| Toast.ReduceKeepsLimit | frontend/components/ui/use-toast.ts:57-114 | no action takes a store holding at most TOAST_LIMIT = 5 toasts beyond the limit |
| Toast.UpdateToastSpec | frontend/components/ui/use-toast.ts:65-71 | UPDATE_TOAST keeps length, order and ids; a toast whose id equals the action's gets the action's keys merged over its own; every other toast is unchanged |
| Toast.UpdateWithoutIdIsNoOp | frontend/components/ui/use-toast.ts:65-71 | an update without an id matches no toast and leaves the store as it was |
| Toast.MergeIdempotent | frontend/components/ui/use-toast.ts:69 | spreading the same keys over a toast twice is spreading them once |
| Toast.UpdateIdempotent | frontend/components/ui/use-toast.ts:65-71 | applying the same UPDATE_TOAST twice equals applying it once |
| Toast.DismissToastSpec | frontend/components/ui/use-toast.ts:73-98 | DISMISS_TOAST without an id sets `open` to false on every toast, and with an id only on the toasts carrying it; length, order and all other keys are unchanged |
| Toast.DismissIdempotent | frontend/components/ui/use-toast.ts:73-98 | applying the same DISMISS_TOAST twice equals applying it once |
| Toast.RemoveToastSpec | frontend/components/ui/use-toast.ts:100-112 | REMOVE_TOAST without an id empties the store; with an id, a toast remains iff it was there and has another id, and the relative order of what remains is kept |
| Toast.RemoveIdempotent | frontend/components/ui/use-toast.ts:100-112 | applying the same REMOVE_TOAST twice equals applying it once |
| Toast.CountAfterIsModular | frontend/components/ui/use-toast.ts:24-29 | after k calls of `genId` from a valid count c, the counter is (c + k) mod MAX_SAFE_INTEGER |
| Toast.GeneratedIdsDistinct | frontend/components/ui/use-toast.ts:24-29 | the ids of fewer than MAX_SAFE_INTEGER consecutive calls differ, and the call MAX_SAFE_INTEGER later repeats the id |
| Toast.IdCounter.constructor | frontend/components/ui/use-toast.ts:24 | the counter starts at 0 |
| Toast.IdCounter.GenId | frontend/components/ui/use-toast.ts:26-29 | the counter advances by one modulo MAX_SAFE_INTEGER and the id is its decimal text |
| Toast.NewToast | frontend/components/ui/use-toast.ts:176-186 | the added toast carries the caller's title, description and variant, the chosen id and `open: true` |
| Toast.WithVariant | frontend/components/ui/use-toast.ts:200-224 | `success`/`error` set title, description and the variant "success"/"destructive", and every key present in the caller's props overrides them |
| Toast.ToastsField | frontend/components/ui/use-toast.ts:232 | the hook's `toasts` is defined exactly when the held value is a store state |
| Toast.DispatchAsWritten | frontend/components/ui/use-toast.ts:117 | the `useState` setter named `dispatch` makes the action object itself the held value |
| Toast.DispatchAsWrittenLosesToasts | frontend/components/ui/use-toast.ts:117 | as written, the first `toast()` leaves no toast list at all, where reducing the action yields the one new toast |
| Toast.ToastHook.constructor | frontend/components/ui/use-toast.ts:117 | the hook starts with no toasts |
| Toast.ToastHook.Dispatch | frontend/components/ui/use-toast.ts:57-114 | an action replaces the store by the reducer's result |
| Toast.ToastHook.Show | frontend/components/ui/use-toast.ts:165-198 | `toast` uses the caller's truthy id without touching the counter, otherwise one fresh `genId` id, and adds the toast open at the front |
| Toast.ToastHook.Success | frontend/components/ui/use-toast.ts:200-211 | `success` adds the toast built by WithVariant with the variant "success" |
| Toast.ToastHook.Error | frontend/components/ui/use-toast.ts:213-224 | `error` adds the toast built by WithVariant with the variant "destructive" |
| Toast.ToastHook.Update | frontend/components/ui/use-toast.ts:169-173 | the `update` handle dispatches UPDATE_TOAST with the handle's own id |
| Toast.ToastHook.Dismiss | frontend/components/ui/use-toast.ts:230-231 | the hook's `dismiss` dispatches DISMISS_TOAST with the given id, or none |
| Decimal.ParseNatToString | frontend/components/ui/use-toast.ts:28 | reading the decimal text of a count back gives the count |
| Decimal.NatToStringInjective | frontend/components/ui/use-toast.ts:28 | different counts have different decimal texts |
| Decimal.IntToStringInjective | frontend/lib/services/client-api.service.ts:128-129 | different integers have different `toString()` texts |
| Text.ToLower | frontend/features/webhooks/ui/WebhookList.tsx:27-29 | lowercasing keeps the length and maps each ASCII letter to lower case |
| Text.ToUpper | frontend/features/dashboard/ui/RecentActivity.tsx:10 | uppercasing keeps the length, maps each ASCII letter to upper case and leaves no lower-case letter |
| Text.ToUpperIdempotent | frontend/features/dashboard/ui/RecentActivity.tsx:10 | uppercasing twice is uppercasing once |
| Text.TokensOfJoin | frontend/components/layouts/AppLayout.tsx:33 | joining space-free words with single spaces and reading the result as a class list gives back the non-empty words in order |
| WebhookList.ApplyFiltersSpec | frontend/features/webhooks/ui/WebhookList.tsx:21-31 | the two filter steps keep exactly the webhooks that have the status (when it is set) and whose lowercased `path_id` contains the lowercased search (when it is set), in their original order; with neither set they keep the whole list |
| WebhookList.BothFilters | frontend/features/webhooks/ui/WebhookList.tsx:22-31 | the status filter followed by the search filter is one filter on both conditions |
| WebhookList.StrLeTotal | frontend/features/webhooks/ui/WebhookList.tsx:45 | any two strings are ordered one way or the other |
| WebhookList.StrLeTransitive | frontend/features/webhooks/ui/WebhookList.tsx:45 | the string order is transitive |
| WebhookList.InOrderTotal | frontend/features/webhooks/ui/WebhookList.tsx:34-46 | the comparator orders any two webhooks one way or the other, for every key and both directions |
| WebhookList.InOrderTransitive | frontend/features/webhooks/ui/WebhookList.tsx:34-46 | the comparator's order is transitive |
| WebhookList.InsertIndex | frontend/features/webhooks/ui/WebhookList.tsx:34-46 | the insertion point of `x` lies behind an element that may precede it and in front of elements that all have to come after it |
| WebhookList.ShiftRight | frontend/features/webhooks/ui/WebhookList.tsx:34-46 | the shifting loop moves the elements that have to come after `x` one place right and keeps every other element where it was |
| WebhookList.InsertInto | frontend/features/webhooks/ui/WebhookList.tsx:34-46 | one insertion step leaves the array as the sorted part with `x` spliced in behind the last element that may precede it |
| WebhookList.SortInPlace | frontend/features/webhooks/ui/WebhookList.tsx:34-46 | after the in-place sort the array is the stable insertion sort of its old contents |
| WebhookList.InsertionSortSpec | frontend/features/webhooks/ui/WebhookList.tsx:34-46 | the stable sort is ordered by the key (non-decreasing for 'asc', non-increasing for 'desc'; numbers numerically), is a permutation of its input, and keeps webhooks the comparator ties (returns 0 for) in their input order |
| WebhookList.StableSortIsInsertionSort | frontend/features/webhooks/ui/WebhookList.tsx:34 | any sorted permutation that keeps tied webhooks in input order is the model's sort, so every stable `Array.prototype.sort` gives the same list |
| WebhookList.FilteredWebhooks | frontend/features/webhooks/ui/WebhookList.tsx:16-49 | no webhooks loaded gives the empty list; otherwise the result is the stable sort of the filtered list: a permutation of it, holding exactly the selected webhooks, sorted, with tied webhooks in their cached order; the input is a value and the sort works on a fresh copy |
| WebhookList.EmptyStateChoice | frontend/features/webhooks/ui/WebhookList.tsx:73-97 | once loaded, an empty result shows "No matching webhooks" iff search or status is set and "No webhooks found" otherwise; a non-empty one shows its cards |
| WebhookOperations.RequestedPathId | frontend/features/webhooks/hooks/useWebhookOperations.ts:10-15 | the form's `path_id` is sent iff it is present and non-empty, and then unchanged |
| WebhookOperations.CaughtFailure | frontend/features/webhooks/hooks/useWebhookOperations.ts:18-23 | a caught error becomes a failure carrying its message, or the wrapper's own text for a non-Error |
| WebhookOperations.WrappedCall | frontend/features/webhooks/hooks/useWebhookOperations.ts:9-36 | each wrapper resolves with the service result, or with a failure carrying the caught message or its own fallback text ("Failed to create webhook" / "Failed to delete webhook"); it never rejects |
| WebhookOperations.CreateWebhookRequest | frontend/features/webhooks/hooks/useWebhookOperations.ts:9-17 | `createWebhook(formData)` POSTs to `NEXT_PUBLIC_API_URL` + `/api/paths` a body that has `path_id` iff the form value is non-empty |
| WebhookOperations.OptimisticWebhook | frontend/features/webhooks/hooks/useWebhookOperations.ts:50-58 | the placeholder's id is `temp-` and the timestamp, its `path_id` the form value when non-empty and otherwise `webhook-` and the random suffix, its `request_count` 0 |
| WebhookOperations.OptimisticIdRecordsTime | frontend/features/webhooks/hooks/useWebhookOperations.ts:52 | placeholders made at different times have different ids, and the timestamp reads back from the id |
| WebhookOperations.PrependSpec | frontend/features/webhooks/hooks/useWebhookOperations.ts:60-62 | the create patch adds exactly one entry, first, and the cached list (empty when absent) follows unchanged |
| WebhookOperations.RemovePathSpec | frontend/features/webhooks/hooks/useWebhookOperations.ts:117-119 | the delete patch keeps an entry iff its `path_id` differs, in the original order, gives the empty list for an absent cache, and is idempotent |
| WebhookOperations.WebhooksQueryData | frontend/features/webhooks/hooks/useWebhookOperations.ts:98-101 | a failed fetch or falsy data caches an empty list; truthy data is cached as is |
| WebhookOperations.CreateNotice | frontend/features/webhooks/hooks/useWebhookOperations.ts:66-88 | the toast is "success" iff the mutation resolved with success, with the created path id; otherwise "destructive" "Failed to create webhook" with the server error or the fixed sentence |
| WebhookOperations.DeleteNotice | frontend/features/webhooks/hooks/useWebhookOperations.ts:123-144 | the toast is "success" "Webhook deleted successfully" iff the mutation resolved with success; otherwise "destructive" "Failed to delete webhook" with the server error or the fixed sentence |
| WebhookOperations.WebhookCache.constructor | frontend/features/webhooks/hooks/useWebhookOperations.ts:96-97 | the cache entry starts with the given data and not invalidated |
| WebhookOperations.WebhookCache.BeginCreate | frontend/features/webhooks/hooks/useWebhookOperations.ts:45-65 | `onMutate` returns the snapshot and prepends the placeholder |
| WebhookOperations.WebhookCache.BeginDelete | frontend/features/webhooks/hooks/useWebhookOperations.ts:112-122 | `onMutate` returns the snapshot and drops the path |
| WebhookOperations.WebhookCache.Rollback | frontend/features/webhooks/hooks/useWebhookOperations.ts:82 | `onError` writes back the snapshot when there is one; an `undefined` snapshot leaves the entry as it is |
| WebhookOperations.WebhookCache.Invalidate | frontend/features/webhooks/hooks/useWebhookOperations.ts:89-91 | `onSettled` marks the entry invalidated and leaves its data |
| WebhookOperations.WebhookCache.CreateMutation | frontend/features/webhooks/hooks/useWebhookOperations.ts:43-92 | a resolved create, `success: false` included, keeps the placeholder; a rejected one restores a cached list exactly, and on an entry that held nothing keeps the placeholder list; the entry is invalidated in every case |
| WebhookOperations.WebhookCache.DeleteMutation | frontend/features/webhooks/hooks/useWebhookOperations.ts:110-148 | a resolved delete, `success: false` included, keeps the filtered list; a rejected one restores a cached list exactly, and on an entry that held nothing keeps the empty list; the entry is invalidated in every case |
| ApiService.JoinUrlShape | frontend/lib/services/client-api.service.ts:18 | the URL is the base URL, one slash, and the endpoint without its leading slash; an endpoint with or without the slash names the same URL |
| ApiService.RequestUsesJoinedUrl | frontend/lib/services/client-api.service.ts:14-27 | `request` consults the network only at the joined URL with the given options |
| ApiService.NormalizeSuccessIff | frontend/lib/services/client-api.service.ts:29-53 | the result is a success iff the response is ok, its body parses to a non-null value and its `success` is not `false` |
| ApiService.NonOkErrorRule | frontend/lib/services/client-api.service.ts:29-38 | a non-ok response fails with the body's `error`, else `message`, else "HTTP error! status: N", also when the body does not parse; the error is truthy |
| ApiService.SuccessFalseRule | frontend/lib/services/client-api.service.ts:43-48 | an ok body with `success: false` fails with its `error`, else "Unknown error occurred" |
| ApiService.UnwrapRule | frontend/lib/services/client-api.service.ts:50-53 | otherwise the data is the body's `data` when truthy, else the whole body |
| ApiService.CaughtRule | frontend/lib/services/client-api.service.ts:54-60 | a failed `fetch`, a body that does not parse and a `null` body all fail with the caught message ("Network error occurred" for a non-Error); nothing propagates |
| ApiService.PostBodyRule | frontend/lib/services/client-api.service.ts:67-72 | `post` sends a body iff it is given a truthy value |
| ApiService.ClientApiService | frontend/lib/services/client-api.service.ts:6-12 | the client instance's base URL is `NEXT_PUBLIC_API_URL` |
| ApiService.ServerApiService | frontend/lib/services/api.service.ts:6-11 | the server instance's base URL is `API_URL`, and it is the client instance when the two variables agree |
| ApiService.ServerRequestRules | frontend/lib/services/api.service.ts:13-60 | the server `request` joins onto `API_URL` and folds the outcome by the same rules; on equal base URLs it gives the client's result |
| ApiService.ServiceEndpoints | frontend/lib/services/client-api.service.ts:89-119 | each service calls the network once, at the base URL plus its path, with its method; `createWebhook` POSTs `{ path_id }` with the key iff an id is given |
| ApiService.LogsParamsSpec | frontend/lib/services/client-api.service.ts:126-132 | `limit`/`offset` are sent iff truthy (so offset 0 is not), `include_body` iff defined, and no other parameter, so method, search and date filters never are |
| ApiService.SerializeEmpty | frontend/lib/services/client-api.service.ts:134 | the query string is empty iff there are no parameters |
| ApiService.LogsPath | frontend/lib/services/client-api.service.ts:134 | `?` and the query follow `/api/paths/{id}/logs` only when the query is non-empty |
| ApiService.SearchParams.constructor | frontend/lib/services/client-api.service.ts:126 | a new `URLSearchParams` holds no pairs |
| ApiService.SearchParams.Append | frontend/lib/services/client-api.service.ts:128-132 | `append` adds one pair at the end |
| ApiService.LogsEndpoint | frontend/lib/services/client-api.service.ts:126-134 | the appended parameters are exactly LogsParams(options) and the endpoint is LogsPath over their serialisation |
| ApiService.LogsSuccessRule | frontend/lib/services/client-api.service.ts:142-154 | a success with a pagination object yields its `requests` as logs, copies total, limit and offset, and `has_more` holds iff offset + limit < total |
| ApiService.LogsFailureRule | frontend/lib/services/client-api.service.ts:142-160 | a failure, or a success with falsy data, yields a failure with the upstream error or "Failed to fetch logs"; truthy data without pagination throws |
| ApiService.HasMoreExamples | frontend/lib/services/client-api.service.ts:151 | 10 at offset 0 of 25 has more; 10 at offset 20 of 25 does not |
| ApiService.GetLogs | frontend/lib/services/client-api.service.ts:122-161 | `getLogs` is the pagination mapping of a GET of the built endpoint |
| ApiService.ServerGetLogs | frontend/lib/services/api.service.ts:108-148 | the server `getLogs` GETs the same endpoint under `API_URL`, and its `has_more` follows the same rule |
| WebhookStore.InitialFilters | frontend/lib/stores/webhookStore.ts:14-18 | the initial filters have no status, an empty search, and sort by `created_at` descending |
| WebhookStore.MergeFiltersSpec | frontend/lib/stores/webhookStore.ts:25-27 | `setFilters(p)` takes each key present in `p` from `p` and keeps every other key |
| WebhookStore.MergeFiltersLaws | frontend/lib/stores/webhookStore.ts:25-27 | `setFilters({})` changes nothing, and applying a patch twice equals applying it once |
| WebhookStore.FullPatchOverwrites | frontend/lib/stores/webhookStore.ts:25-27 | a patch naming every key gives the same filters whatever they were before |
| WebhookStore.FilterStore.constructor | frontend/lib/stores/webhookStore.ts:23 | the store starts with the initial filters |
| WebhookStore.FilterStore.SetFilters | frontend/lib/stores/webhookStore.ts:25-27 | the new filters are the old ones merged with the patch |
| WebhookStore.FilterStore.ResetFilters | frontend/lib/stores/webhookStore.ts:29-31 | from any state the filters become the initial ones, so resetting twice is resetting once |
| WebhookStore.FilterStore.Partialize | frontend/lib/stores/webhookStore.ts:35-37 | the persisted snapshot holds the filters and nothing else |
| AppLayout.CnDropsFalsy | frontend/components/layouts/AppLayout.tsx:32-34 | a falsy argument (`false`, `undefined`, `''`) anywhere can be dropped without changing the result |
| AppLayout.CnOfFalsy | frontend/components/layouts/AppLayout.tsx:33 | no truthy argument gives the empty string |
| AppLayout.CnTokens | frontend/components/layouts/AppLayout.tsx:33 | for single-class arguments the result reads back as the truthy arguments, once each, in their original order |
| AppLayout.CnOfTwo | frontend/components/layouts/AppLayout.tsx:33 | for two strings, the first non-empty, the result is the first, or both joined by one space when the second is non-empty |
| AppLayout.MainClassText | frontend/components/layouts/AppLayout.tsx:19-22 | the class of `main` is the base classes, followed by " md:ml-64" when the sidebar is open |
| AppLayout.MainClassTokens | frontend/components/layouts/AppLayout.tsx:19-22 | `main` carries `flex-1`, `transition-all`, `duration-200`, and `md:ml-64` iff the sidebar is open |
| RecentActivity.GetMethodColorIgnoresCase | frontend/features/dashboard/ui/RecentActivity.tsx:9-10 | the colour of a method equals the colour of its upper-cased form |
| RecentActivity.MethodColors | frontend/features/dashboard/ui/RecentActivity.tsx:11-23 | GET, POST, PUT, DELETE and PATCH get their five distinct classes; a method gets the gray default iff it is none of them |
| RecentActivity.RecentRequests | frontend/features/dashboard/ui/RecentActivity.tsx:60 | absent stats or an absent `recent_requests` give the empty list; otherwise the list itself |
| RecentActivity.ActivitySpec | frontend/features/dashboard/ui/RecentActivity.tsx:68-121 | the empty state is shown iff there are no requests; otherwise the rows are exactly the first min(5, n) requests in order, and the "And N more" note appears iff n > 5 with N = n - 5 |
| RecentActivity.ActivityExamples | frontend/features/dashboard/ui/RecentActivity.tsx:93-122 | ten requests show the first five and "5 more"; three show all three and no note |

## Left out

- Toast timers: the auto-dismiss after `duration`, the removal TOAST_REMOVE_DELAY after a dismissal, the `toastTimeouts` map and the `mounted` flag are wall-clock scheduling (use-toast.ts:118-163, 188-191). The `onOpenChange`, `onDismiss` and `onRemove` callbacks and the `action` element are rendering hooks.
- Toast.ToastHook.Dispatch: models the evident intent, reducing the action, and not the `useState` setter the source calls (see Findings).
- Toast.ToastHook.Show: the caller can pass `id` only by going around the `Omit<…, "id">` type, which the model does not forbid.
- The network, `response.json()`, `JSON.stringify` and the `Content-Type` header are left out. The transport is a parameter. A response body is either parsed JSON or a parse error.
- `console.error` is not modelled.
- JSON numbers are integers, so floating point is not modelled. That covers `toString()` of non-integers and the arithmetic of `has_more`.
- ApiService.LogsSuccessRule: states `has_more` only when total, limit and offset are all numbers. `HasMore` is false otherwise, and JavaScript's coercions of `+` and `<` on other values are not modelled.
- Percent-encoding of the query string is not modelled. The keys and values sent are digits and booleans, which need none. `pathId` is interpolated unencoded, as in the source.
- A key present with the value `undefined` is not distinguished from an absent key, in JSON bodies, toast props or filter patches.
- `formData.get` returning a `File` is not modelled. The form value is a string or absent.
- React Query internals are left out: `cancelQueries`, `staleTime`, the refetch that invalidation triggers, request deduplication and concurrent mutations. Each mutation runs as one sequential call on `WebhookCache`. How the mutation function settled is a parameter. Because both wrappers never reject (WrappedCall), the rollback path is reached only if the mutation rejects for a reason outside the wrappers.
- WebhookOperations.CreateNotice: the description `Path ID: ${result.data?.path_id}` is kept symbolic, as the path id value. Template-string conversion of JSON values is not modelled.
- Showing a notice goes through `toast`, which the Toast module models. The mutations return the notice rather than calling `ToastHook`.
- WebhookOperations.WebhooksQueryData: the cached value is the JSON the client returns. Decoding it into `WebhookPath` records for `WebhookCache` is not modelled.
- `Date.now()`, `toISOString()` and `Math.random().toString(36).substring(2, 10)` are parameters. The model does not constrain the random suffix to eight base-36 digits.
- WebhookList.SortInPlace: `localeCompare` is replaced by the order of character codes, a total order, proved total and transitive. Locale collation is not modelled.
- WebhookList.SortInPlace: the engine's own sorting algorithm is not modelled. The model sorts by stable insertion, as `Array.prototype.sort` must be stable, and `StableSortIsInsertionSort` shows that every stable sort gives the same list.
- WebhookList.FilteredWebhooks: strings are ordered by character codes rather than by `localeCompare`, so for strings the locale collates differently the order can differ from the program's.
- Text.ToLower, Text.ToUpper: case mapping covers ASCII letters only. Unicode case mapping is not modelled.
- A webhook `status` outside `active`/`paused`/`error` is not representable. A missing status never matches a set status filter, as in the source.
- The zustand `persist` backend (localStorage, the name `webhook-store`) is storage I/O. Only `partialize` is modelled.
- The loading and error branches of `RecentActivity` and the row contents are rendering and are not modelled: `ip_address || 'unknown'` and `formatDistanceToNow`. The loading and error branches of `WebhookList` are modelled by `View`.
- `put` has no caller among the services. It is modelled but no property is stated about it.
- Environment loading (`lib/config/env.ts`) is not part of this model. The two base URLs are the fields of `Env`.

## Findings

| source | as written | input that shows it | evidently intended | confidence | as-written member | corrected member |
|---|---|---|---|---|---|---|
| frontend/components/ui/use-toast.ts:117 | `const [state, dispatch] = useState<State>(…)`: `dispatch` is the state setter, so every `dispatch({ type, … })` makes the action object the whole state, `reducer` (lines 57-114) is never called, and `state.toasts` becomes `undefined` | `toast({ title: "Saved" })` on the empty store: the held value becomes the ADD_TOAST action, which has no `toasts` list | `useReducer(reducer, { toasts: [] })`, so that each action is reduced | high; not executed | Toast.DispatchAsWrittenLosesToasts | Toast.ToastHook.Dispatch |
