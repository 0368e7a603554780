/** The `filteredWebhooks` computation of `features/webhooks/ui/WebhookList.tsx`:
    copy the cached list, keep the webhooks that pass the status and search
    filters, sort the copy in place by the chosen key, and pick the
    empty-state message when nothing is left. */
module WebhookList {
  import opened Options
  import opened WebhookTypes
  import opened Sequences
  import opened Text

  /** `filters.status` is truthy. */
  predicate StatusSet(filters: WebhookFilters) {
    filters.status.Some? && filters.status.value != ""
  }

  predicate HasStatus(w: WebhookPath, status: string) {
    w.status.Some? && w.status.value.Name() == status
  }

  /** The lowercased `path_id` contains the lowercased search text. */
  predicate MatchesSearch(w: WebhookPath, search: string) {
    Contains(ToLower(w.pathId), ToLower(search))
  }

  /** A webhook the list shows under `filters`. */
  predicate Selected(w: WebhookPath, filters: WebhookFilters) {
    && (StatusSet(filters) ==> HasStatus(w, filters.status.value))
    && (filters.search != "" ==> MatchesSearch(w, filters.search))
  }

  function ByStatus(status: string): WebhookPath -> bool {
    (w: WebhookPath) => HasStatus(w, status)
  }

  function BySearch(search: string): WebhookPath -> bool {
    (w: WebhookPath) => MatchesSearch(w, search)
  }

  /** The two filter steps, the status filter first. */
  function ApplyFilters(webhooks: seq<WebhookPath>, filters: WebhookFilters): seq<WebhookPath> {
    var afterStatus := if StatusSet(filters) then Filter(webhooks, ByStatus(filters.status.value)) else webhooks;
    if filters.search != "" then Filter(afterStatus, BySearch(filters.search)) else afterStatus
  }

  /** The filter steps keep exactly the selected webhooks, in their original
      order; with neither filter set they keep the whole list. */
  lemma ApplyFiltersSpec(webhooks: seq<WebhookPath>, filters: WebhookFilters)
    ensures ApplyFilters(webhooks, filters) == Filter(webhooks, SelectedBy(filters))
    ensures forall w :: w in ApplyFilters(webhooks, filters) <==> w in webhooks && Selected(w, filters)
    ensures !StatusSet(filters) && filters.search == "" ==> ApplyFilters(webhooks, filters) == webhooks
  {
    var sel := SelectedBy(filters);
    if StatusSet(filters) && filters.search != "" {
      BothFilters(webhooks, filters);
    } else if StatusSet(filters) {
      FilterSameTest(webhooks, ByStatus(filters.status.value), sel);
    } else if filters.search != "" {
      FilterSameTest(webhooks, BySearch(filters.search), sel);
    } else {
      forall i | 0 <= i < |webhooks| ensures sel(webhooks[i]) {
      }
      FilterAllPass(webhooks, sel);
    }
    assert forall w :: sel(w) == Selected(w, filters);
  }

  lemma BothFilters(webhooks: seq<WebhookPath>, filters: WebhookFilters)
    requires StatusSet(filters) && filters.search != ""
    ensures ApplyFilters(webhooks, filters) == Filter(webhooks, SelectedBy(filters))
  {
    var status, search := ByStatus(filters.status.value), BySearch(filters.search);
    var both := (x: WebhookPath) => status(x) && search(x);
    assert ApplyFilters(webhooks, filters) == Filter(Filter(webhooks, status), search);
    FilterFilter(webhooks, status, search);
    FilterSameTest(webhooks, both, SelectedBy(filters));
  }

  function SelectedBy(filters: WebhookFilters): WebhookPath -> bool {
    (w: WebhookPath) => Selected(w, filters)
  }

  /** Filters with tests that agree on every element give the same result. */
  lemma {:induction false} FilterSameTest(s: seq<WebhookPath>, p: WebhookPath -> bool, q: WebhookPath -> bool)
    requires forall w :: p(w) == q(w)
    ensures Filter(s, p) == Filter(s, q)
    decreases |s|
  {
    if s != [] {
      FilterSameTest(s[1..], p, q);
    }
  }

  /** `String(a).localeCompare(String(b)) <= 0`, with the locale's collation
      replaced by the order of character codes. */
  predicate StrLe(a: string, b: string)
    decreases |a|
  {
    if a == [] then true
    else if b == [] then false
    else if a[0] != b[0] then a[0] < b[0]
    else StrLe(a[1..], b[1..])
  }

  lemma {:induction false} StrLeTotal(a: string, b: string)
    ensures StrLe(a, b) || StrLe(b, a)
    decreases |a|
  {
    if a != [] && b != [] && a[0] == b[0] {
      StrLeTotal(a[1..], b[1..]);
    }
  }

  lemma {:induction false} StrLeTransitive(a: string, b: string, c: string)
    requires StrLe(a, b) && StrLe(b, c)
    ensures StrLe(a, c)
    decreases |a|
  {
    if a != [] && b != [] && c != [] && a[0] == b[0] && b[0] == c[0] {
      StrLeTransitive(a[1..], b[1..], c[1..]);
    }
  }

  /** The sort key of `filters.sortBy` of `x` is at most that of `y`: numbers
      compare numerically, strings by `StrLe`. */
  predicate KeyLe(x: WebhookPath, y: WebhookPath, key: SortKey) {
    match key
    case RequestCount => x.requestCount <= y.requestCount
    case CreatedAt => StrLe(x.createdAt, y.createdAt)
    case UpdatedAt => StrLe(x.updatedAt, y.updatedAt)
  }

  /** The comparator returns at most 0 for `(x, y)`: `x` may come before `y`.
      The direction is ascending for 'asc' and descending otherwise. */
  predicate InOrder(x: WebhookPath, y: WebhookPath, key: SortKey, order: SortOrder) {
    if order == Asc then KeyLe(x, y, key) else KeyLe(y, x, key)
  }

  lemma InOrderTotal(x: WebhookPath, y: WebhookPath, key: SortKey, order: SortOrder)
    ensures InOrder(x, y, key, order) || InOrder(y, x, key, order)
  {
    match key
    case RequestCount =>
    case CreatedAt => StrLeTotal(x.createdAt, y.createdAt);
    case UpdatedAt => StrLeTotal(x.updatedAt, y.updatedAt);
  }

  lemma InOrderTransitive(x: WebhookPath, y: WebhookPath, z: WebhookPath, key: SortKey, order: SortOrder)
    requires InOrder(x, y, key, order) && InOrder(y, z, key, order)
    ensures InOrder(x, z, key, order)
  {
    match key
    case RequestCount =>
    case CreatedAt =>
      if order == Asc { StrLeTransitive(x.createdAt, y.createdAt, z.createdAt); }
      else { StrLeTransitive(z.createdAt, y.createdAt, x.createdAt); }
    case UpdatedAt =>
      if order == Asc { StrLeTransitive(x.updatedAt, y.updatedAt, z.updatedAt); }
      else { StrLeTransitive(z.updatedAt, y.updatedAt, x.updatedAt); }
  }

  predicate Sorted(s: seq<WebhookPath>, key: SortKey, order: SortOrder) {
    forall i, j :: 0 <= i < j < |s| ==> InOrder(s[i], s[j], key, order)
  }

  /** The comparator returns 0 for `(x, y)`: under `key` neither webhook
      has to come before the other, in either direction. */
  predicate Tied(x: WebhookPath, y: WebhookPath, key: SortKey) {
    KeyLe(x, y, key) && KeyLe(y, x, key)
  }

  function TiedWith(w: WebhookPath, key: SortKey): WebhookPath -> bool {
    (v: WebhookPath) => Tied(w, v, key)
  }

  /** For every webhook `w`, the webhooks tied with `w` come in the same order
      in `s` as in `t`: what a stable sort keeps of its input. */
  ghost predicate SameTieOrder(s: seq<WebhookPath>, t: seq<WebhookPath>, key: SortKey) {
    forall w :: Filter(s, TiedWith(w, key)) == Filter(t, TiedWith(w, key))
  }

  /** One insertion step of `Array.prototype.sort`, which is stable: the
      array holds the sorted part `done` followed by `rest`, and `rest[0]`
      moves left past every element of `done` that has to come after it,
      stopping behind the first one that may come before it. */
  method InsertInto(a: array<WebhookPath>, i: nat, key: SortKey, order: SortOrder, ghost done: seq<WebhookPath>, ghost rest: seq<WebhookPath>)
    returns (j: nat)
    requires |done| == i && rest != [] && a[..] == done + rest
    modifies a
    ensures j <= i
    ensures a[..] == done[..j] + [rest[0]] + done[j..] + rest[1..]
    ensures j > 0 ==> InOrder(done[j - 1], rest[0], key, order)
    ensures forall k :: j <= k < i ==> !InOrder(done[k], rest[0], key, order)
  {
    ConcatAt(a[..], done, rest);
    var x := a[i];
    j := ShiftRight(a, i, x, key, order, done, rest);
    a[j] := x;
    Spliced(a[..], done, rest, j);
  }

  /** The shifting loop of an insertion step: the elements of `done` that
      have to come after `x` move one place right, leaving a gap at `j`. */
  method ShiftRight(a: array<WebhookPath>, i: nat, x: WebhookPath, key: SortKey, order: SortOrder, ghost done: seq<WebhookPath>, ghost rest: seq<WebhookPath>)
    returns (j: nat)
    requires |done| == i && a.Length == |done| + |rest| && i < a.Length
    requires forall k :: 0 <= k < i ==> a[k] == done[k]
    requires forall k :: i < k < a.Length ==> a[k] == rest[k - i]
    modifies a
    ensures j <= i
    ensures forall k :: 0 <= k < j ==> a[k] == done[k]
    ensures forall k :: j < k <= i ==> a[k] == done[k - 1]
    ensures forall k :: i < k < a.Length ==> a[k] == rest[k - i]
    ensures j > 0 ==> InOrder(done[j - 1], x, key, order)
    ensures forall k :: j <= k < i ==> !InOrder(done[k], x, key, order)
  {
    j := i;
    while j > 0 && !InOrder(a[j - 1], x, key, order)
      invariant j <= i
      invariant forall k :: 0 <= k < j ==> a[k] == done[k]
      invariant forall k :: j < k <= i ==> a[k] == done[k - 1]
      invariant forall k :: i < k < a.Length ==> a[k] == rest[k - i]
      invariant forall k :: j <= k < i ==> !InOrder(done[k], x, key, order)
    {
      a[j] := a[j - 1];
      j := j - 1;
    }
  }

  /** The elements of a concatenation, index by index. */
  lemma ConcatAt(s: seq<WebhookPath>, done: seq<WebhookPath>, rest: seq<WebhookPath>)
    requires s == done + rest
    ensures forall k :: 0 <= k < |done| ==> s[k] == done[k]
    ensures forall k :: |done| <= k < |s| ==> s[k] == rest[k - |done|]
  {
  }

  /** The array after the shift, read as a sequence. */
  lemma Spliced(s: seq<WebhookPath>, done: seq<WebhookPath>, rest: seq<WebhookPath>, j: nat)
    requires j <= |done| && rest != [] && |s| == |done| + |rest|
    requires forall k :: 0 <= k < j ==> s[k] == done[k]
    requires s[j] == rest[0]
    requires forall k :: j < k <= |done| ==> s[k] == done[k - 1]
    requires forall k :: |done| < k < |s| ==> s[k] == rest[k - |done|]
    ensures s == done[..j] + [rest[0]] + done[j..] + rest[1..]
  {
  }

  /** Inserting `x` behind the last element that may precede it keeps a sorted list sorted. */
  lemma InsertKeepsOrder(p: seq<WebhookPath>, j: nat, x: WebhookPath, key: SortKey, order: SortOrder)
    requires j <= |p|
    requires Sorted(p, key, order)
    requires j > 0 ==> InOrder(p[j - 1], x, key, order)
    requires forall k :: j <= k < |p| ==> !InOrder(p[k], x, key, order)
    ensures Sorted(p[..j] + [x] + p[j..], key, order)
  {
    var t := p[..j] + [x] + p[j..];
    forall u, v | 0 <= u < v < |t| ensures InOrder(t[u], t[v], key, order) {
      if v < j {
        assert t[u] == p[u] && t[v] == p[v];
      } else if v == j {
        assert t[u] == p[u] && t[v] == x;
        if u < j - 1 {
          InOrderTransitive(p[u], p[j - 1], x, key, order);
        }
      } else if u < j {
        assert t[u] == p[u] && t[v] == p[v - 1];
      } else if u == j {
        assert t[u] == x && t[v] == p[v - 1];
        InOrderTotal(p[v - 1], x, key, order);
      } else {
        assert t[u] == p[u - 1] && t[v] == p[v - 1];
      }
    }
  }

  lemma TiedTransitive(x: WebhookPath, y: WebhookPath, z: WebhookPath, key: SortKey)
    requires Tied(x, y, key) && Tied(y, z, key)
    ensures Tied(x, z, key)
  {
    InOrderTransitive(x, y, z, key, Asc);
    InOrderTransitive(z, y, x, key, Asc);
  }

  /** Inserting `x` in front of elements that have to come after it keeps
      the order of tied elements that appending it would give. */
  lemma InsertKeepsTies(p: seq<WebhookPath>, j: nat, x: WebhookPath, key: SortKey, order: SortOrder)
    requires j <= |p|
    requires forall k :: j <= k < |p| ==> !InOrder(p[k], x, key, order)
    ensures SameTieOrder(p[..j] + [x] + p[j..], p + [x], key)
  {
    forall w ensures Filter(p[..j] + [x] + p[j..], TiedWith(w, key)) == Filter(p + [x], TiedWith(w, key)) {
      assert forall k :: 0 <= k < |p[j..]| ==> p[j..][k] == p[j + k];
      AfterNotTied(p[j..], x, w, key, order);
      FilterMoveBack(p[..j], p[j..], x, TiedWith(w, key));
      assert p[..j] + p[j..] == p;
    }
  }

  /** Nothing that has to come after `x` is tied with a webhook `x` is tied with. */
  lemma AfterNotTied(back: seq<WebhookPath>, x: WebhookPath, w: WebhookPath, key: SortKey, order: SortOrder)
    requires forall k :: 0 <= k < |back| ==> !InOrder(back[k], x, key, order)
    ensures Tied(w, x, key) ==> forall k :: 0 <= k < |back| ==> !Tied(w, back[k], key)
  {
    forall k | 0 <= k < |back| && Tied(w, x, key) ensures !Tied(w, back[k], key) {
      if Tied(w, back[k], key) {
        TiedTransitive(back[k], w, x, key);
      }
    }
  }

  /** Appending the same element to two lists keeps their tie order equal. */
  lemma TieOrderAppend(p: seq<WebhookPath>, q: seq<WebhookPath>, x: WebhookPath, key: SortKey)
    requires SameTieOrder(p, q, key)
    ensures SameTieOrder(p + [x], q + [x], key)
  {
    forall w ensures Filter(p + [x], TiedWith(w, key)) == Filter(q + [x], TiedWith(w, key)) {
      FilterAppend(p, [x], TiedWith(w, key));
      FilterAppend(q, [x], TiedWith(w, key));
    }
  }

  /** The stable insertion sort of `s` under the comparator: each element in
      turn is inserted into the sorted front part. */
  function InsertionSort(s: seq<WebhookPath>, key: SortKey, order: SortOrder): (r: seq<WebhookPath>)
    ensures |r| == |s|
    decreases |s|
  {
    if s == [] then [] else Insert(InsertionSort(s[..|s| - 1], key, order), s[|s| - 1], key, order)
  }

  /** Where `Insert` puts `x`: behind every element that may precede it,
      in front of a tail whose elements all have to come after it. */
  function InsertIndex(s: seq<WebhookPath>, x: WebhookPath, key: SortKey, order: SortOrder): (j: nat)
    ensures j <= |s|
    ensures j > 0 ==> InOrder(s[j - 1], x, key, order)
    ensures forall k :: j <= k < |s| ==> !InOrder(s[k], x, key, order)
    decreases |s|
  {
    if s == [] then 0
    else if InOrder(s[|s| - 1], x, key, order) then |s|
    else InsertIndex(s[..|s| - 1], x, key, order)
  }

  /** Inserting `x` into a list behind its last element that may precede
      `x`, in front of the elements after it: one step of the stable insertion sort. */
  function Insert(s: seq<WebhookPath>, x: WebhookPath, key: SortKey, order: SortOrder): (r: seq<WebhookPath>)
    ensures |r| == |s| + 1
  {
    var j := InsertIndex(s, x, key, order);
    s[..j] + [x] + s[j..]
  }

  /** Only one position has every element that may precede `x` in front of
      it and only elements that have to come after `x` behind it. */
  lemma InsertIndexUnique(s: seq<WebhookPath>, x: WebhookPath, j: nat, key: SortKey, order: SortOrder)
    requires j <= |s|
    requires j > 0 ==> InOrder(s[j - 1], x, key, order)
    requires forall k :: j <= k < |s| ==> !InOrder(s[k], x, key, order)
    ensures j == InsertIndex(s, x, key, order)
  {
  }

  /** The position an insertion step finds is the one `Insert` uses. */
  lemma InsertIs(s: seq<WebhookPath>, x: WebhookPath, j: nat, key: SortKey, order: SortOrder)
    requires j <= |s|
    requires j > 0 ==> InOrder(s[j - 1], x, key, order)
    requires forall k :: j <= k < |s| ==> !InOrder(s[k], x, key, order)
    ensures Insert(s, x, key, order) == s[..j] + [x] + s[j..]
  {
    InsertIndexUnique(s, x, j, key, order);
  }

  /** `Insert` keeps a sorted list sorted. */
  lemma InsertSorted(d: seq<WebhookPath>, x: WebhookPath, key: SortKey, order: SortOrder)
    requires Sorted(d, key, order)
    ensures Sorted(Insert(d, x, key, order), key, order)
  {
    var j := InsertIndex(d, x, key, order);
    InsertKeepsOrder(d, j, x, key, order);
  }

  /** `Insert` adds `x` and nothing else. */
  lemma InsertMultiset(d: seq<WebhookPath>, x: WebhookPath, key: SortKey, order: SortOrder)
    ensures multiset(Insert(d, x, key, order)) == multiset(d) + multiset{x}
  {
    var j := InsertIndex(d, x, key, order);
    assert d == d[..j] + d[j..];
  }

  /** `Insert` keeps the tie order that appending `x` would give. */
  lemma InsertTies(d: seq<WebhookPath>, x: WebhookPath, key: SortKey, order: SortOrder)
    ensures SameTieOrder(Insert(d, x, key, order), d + [x], key)
  {
    var j := InsertIndex(d, x, key, order);
    InsertKeepsTies(d, j, x, key, order);
  }

  /** The insertion sort is sorted, holds the same webhooks, and keeps tied
      webhooks in their input order. */
  lemma {:induction false} InsertionSortSpec(s: seq<WebhookPath>, key: SortKey, order: SortOrder)
    ensures Sorted(InsertionSort(s, key, order), key, order)
    ensures multiset(InsertionSort(s, key, order)) == multiset(s)
    ensures SameTieOrder(InsertionSort(s, key, order), s, key)
    decreases |s|
  {
    if s != [] {
      var init, x := s[..|s| - 1], s[|s| - 1];
      assert s == init + [x];
      InsertionSortSpec(init, key, order);
      var d := InsertionSort(init, key, order);
      InsertSorted(d, x, key, order);
      InsertMultiset(d, x, key, order);
      InsertTies(d, x, key, order);
      TieOrderAppend(d, init, x, key);
    }
  }

  /** A stable sort has one possible result: any list that is sorted, holds
      the same webhooks as `s` and keeps tied webhooks in their order in `s`
      is the insertion sort of `s`. So every stable engine sort, whatever
      its algorithm, yields the order the model computes. */
  lemma StableSortIsInsertionSort(s: seq<WebhookPath>, r: seq<WebhookPath>, key: SortKey, order: SortOrder)
    requires Sorted(r, key, order) && multiset(r) == multiset(s) && SameTieOrder(r, s, key)
    ensures r == InsertionSort(s, key, order)
  {
    InsertionSortSpec(s, key, order);
    SortedUnique(r, InsertionSort(s, key, order), key, order);
  }

  /** Two sorted lists with the same webhooks and the same tie order are equal. */
  lemma {:induction false} SortedUnique(t: seq<WebhookPath>, u: seq<WebhookPath>, key: SortKey, order: SortOrder)
    requires Sorted(t, key, order) && Sorted(u, key, order)
    requires multiset(t) == multiset(u) && SameTieOrder(t, u, key)
    ensures t == u
    decreases |t|
  {
    assert |t| == |u| by {
      assert |multiset(t)| == |multiset(u)|;
    }
    if t != [] {
      SameHead(t, u, key, order);
      TailsAgree(t, u, key);
      SortedUnique(t[1..], u[1..], key, order);
    }
  }

  /** Lists with the same head, webhooks and tie order have tails that agree in both. */
  lemma TailsAgree(t: seq<WebhookPath>, u: seq<WebhookPath>, key: SortKey)
    requires t != [] && u != [] && t[0] == u[0]
    requires multiset(t) == multiset(u) && SameTieOrder(t, u, key)
    ensures multiset(t[1..]) == multiset(u[1..])
    ensures SameTieOrder(t[1..], u[1..], key)
  {
    assert t == [t[0]] + t[1..] && u == [u[0]] + u[1..];
    assert multiset(t) == multiset{t[0]} + multiset(t[1..]);
    assert multiset(u) == multiset{t[0]} + multiset(u[1..]);
    assert multiset(t[1..]) == multiset(t) - multiset{t[0]};
    assert multiset(u[1..]) == multiset(u) - multiset{t[0]};
    forall w ensures Filter(t[1..], TiedWith(w, key)) == Filter(u[1..], TiedWith(w, key)) {
      TailFilter(t, u, TiedWith(w, key));
    }
  }

  /** Filters that agree on two lists with the same head agree on their tails. */
  lemma TailFilter(t: seq<WebhookPath>, u: seq<WebhookPath>, keep: WebhookPath -> bool)
    requires t != [] && u != [] && t[0] == u[0]
    requires Filter(t, keep) == Filter(u, keep)
    ensures Filter(t[1..], keep) == Filter(u[1..], keep)
  {
    var a, b := Filter(t[1..], keep), Filter(u[1..], keep);
    if keep(t[0]) {
      assert Filter(t, keep) == [t[0]] + a;
      assert Filter(u, keep) == [t[0]] + b;
      assert ([t[0]] + a)[1..] == a && ([t[0]] + b)[1..] == b;
    } else {
      assert Filter(t, keep) == a;
      assert Filter(u, keep) == b;
    }
  }

  /** Sorted lists with the same webhooks and tie order start with the same webhook:
      both heads come first, so they are tied, and the tie order puts the same one first. */
  lemma SameHead(t: seq<WebhookPath>, u: seq<WebhookPath>, key: SortKey, order: SortOrder)
    requires t != [] && u != []
    requires Sorted(t, key, order) && Sorted(u, key, order)
    requires multiset(t) == multiset(u) && SameTieOrder(t, u, key)
    ensures t[0] == u[0]
  {
    assert t[0] in multiset(u) && u[0] in multiset(t);
    FirstPrecedes(u, t[0], key, order);
    FirstPrecedes(t, u[0], key, order);
    InOrderTotal(t[0], t[0], key, order);
    var tw := TiedWith(t[0], key);
    assert tw(t[0]) && tw(u[0]);
    HeadOfFilter(t, tw);
    HeadOfFilter(u, tw);
    assert Filter(t, tw) == Filter(u, tw);
  }

  /** The head of a sorted list may come before every webhook in it. */
  lemma FirstPrecedes(u: seq<WebhookPath>, x: WebhookPath, key: SortKey, order: SortOrder)
    requires Sorted(u, key, order) && x in u
    ensures InOrder(u[0], x, key, order)
  {
    var m :| 0 <= m < |u| && u[m] == x;
    if m == 0 {
      InOrderTotal(x, x, key, order);
    }
  }

  /** A list whose head passes a filter keeps that head first. */
  lemma HeadOfFilter(t: seq<WebhookPath>, keep: WebhookPath -> bool)
    requires t != [] && keep(t[0])
    ensures Filter(t, keep) != [] && Filter(t, keep)[0] == t[0]
  {
  }

  /** Inserting the next input element where `InsertInto` puts it extends
      the insertion sort of the input's prefix by that element. */
  lemma InsertNext(input: seq<WebhookPath>, i: nat, done: seq<WebhookPath>, j: nat, key: SortKey, order: SortOrder)
    requires i < |input| && j <= i && done == InsertionSort(input[..i], key, order)
    requires j > 0 ==> InOrder(done[j - 1], input[i], key, order)
    requires forall k :: j <= k < i ==> !InOrder(done[k], input[i], key, order)
    ensures done[..j] + [input[i..][0]] + done[j..] + input[i..][1..] == InsertionSort(input[..i + 1], key, order) + input[i + 1..]
  {
    InsertionSortStep(input, i, key, order);
    InsertIs(done, input[i], j, key, order);
    assert input[i..][0] == input[i] && input[i..][1..] == input[i + 1..];
  }

  /** The insertion sort of one more input element inserts it into the sort of the rest. */
  lemma InsertionSortStep(input: seq<WebhookPath>, i: nat, key: SortKey, order: SortOrder)
    requires i < |input|
    ensures InsertionSort(input[..i + 1], key, order) == Insert(InsertionSort(input[..i], key, order), input[i], key, order)
  {
    assert input[..i + 1][..i] == input[..i];
  }

  /** `result.sort(comparator)` on the copied array: the array ends up as the
      stable insertion sort of its contents, which `InsertionSortSpec` shows
      ordered by the comparator, a permutation, and keeping webhooks the
      comparator ties in their input order. */
  method SortInPlace(a: array<WebhookPath>, key: SortKey, order: SortOrder)
    modifies a
    ensures a[..] == InsertionSort(old(a[..]), key, order)
  {
    ghost var input := a[..];
    var i := 0;
    while i < a.Length
      invariant 0 <= i <= a.Length
      invariant a[..] == InsertionSort(input[..i], key, order) + input[i..]
    {
      ghost var done, rest := InsertionSort(input[..i], key, order), input[i..];
      var j := InsertInto(a, i, key, order, done, rest);
      InsertNext(input, i, done, j, key, order);
      i := i + 1;
    }
    assert input[..i] == input;
    assert a[..] == InsertionSort(input, key, order);
  }

  /** The `filteredWebhooks` memo: nothing loaded gives the empty list; otherwise
      the selected webhooks, each as often as in the cache, sorted by the
      filters, with tied webhooks in their cached order. */
  method FilteredWebhooks(webhooks: Option<seq<WebhookPath>>, filters: WebhookFilters) returns (result: seq<WebhookPath>)
    ensures webhooks.None? ==> result == []
    ensures webhooks.Some? ==> multiset(result) == multiset(ApplyFilters(webhooks.value, filters))
    ensures forall w :: w in result <==> webhooks.Some? && w in webhooks.value && Selected(w, filters)
    ensures Sorted(result, filters.sortBy, filters.sortOrder)
    ensures webhooks.Some? ==> SameTieOrder(result, ApplyFilters(webhooks.value, filters), filters.sortBy)
    ensures webhooks.Some? ==> result == InsertionSort(ApplyFilters(webhooks.value, filters), filters.sortBy, filters.sortOrder)
  {
    if webhooks.None? {
      return [];
    }
    var list := webhooks.value;
    if StatusSet(filters) {
      list := Filter(list, ByStatus(filters.status.value));
    }
    if filters.search != "" {
      list := Filter(list, BySearch(filters.search));
    }
    assert list == ApplyFilters(webhooks.value, filters);
    var copy := new WebhookPath[|list|](k requires 0 <= k < |list| => list[k]);
    assert copy[..] == list;
    SortInPlace(copy, filters.sortBy, filters.sortOrder);
    result := copy[..];
    InsertionSortSpec(list, filters.sortBy, filters.sortOrder);
    ApplyFiltersSpec(webhooks.value, filters);
    SameElements(result, list);
  }

  lemma SameElements(a: seq<WebhookPath>, b: seq<WebhookPath>)
    requires multiset(a) == multiset(b)
    ensures forall w :: w in a <==> w in b
  {
    forall w ensures w in a <==> w in b {
      assert w in a <==> w in multiset(a);
      assert w in b <==> w in multiset(b);
    }
  }

  /** What the list renders. */
  datatype ListView =
    | LoadingSpinner
    | LoadFailed
    | NoMatchingWebhooks
    | NoWebhooksFound
    | Cards(webhooks: seq<WebhookPath>)

  function View(isLoading: bool, failed: bool, filtered: seq<WebhookPath>, filters: WebhookFilters): ListView {
    if isLoading then LoadingSpinner
    else if failed then LoadFailed
    else if |filtered| == 0 then
      (if filters.search != "" || StatusSet(filters) then NoMatchingWebhooks else NoWebhooksFound)
    else Cards(filtered)
  }

  /** Once loaded without error, an empty result shows "No matching webhooks"
      exactly when the search or status filter is set and "No webhooks found"
      otherwise; a non-empty result shows its cards in order. */
  lemma EmptyStateChoice(filtered: seq<WebhookPath>, filters: WebhookFilters)
    ensures View(false, false, filtered, filters) == NoMatchingWebhooks <==>
      filtered == [] && (filters.search != "" || StatusSet(filters))
    ensures View(false, false, filtered, filters) == NoWebhooksFound <==>
      filtered == [] && filters.search == "" && !StatusSet(filters)
    ensures filtered != [] ==> View(false, false, filtered, filters) == Cards(filtered)
  {
  }
}
