/** The persisted filter store of `lib/stores/webhookStore.ts`: a `filters`
    field replaced by a shallow merge or by the fixed initial value. */
module WebhookStore {
  import opened Options
  import opened WebhookTypes

  /** `initialFilters`; it has no `status` key, which reads as `undefined`. */
  function InitialFilters(): (f: WebhookFilters)
    ensures f.status == None && f.search == "" && f.sortBy == CreatedAt && f.sortOrder == Desc
  {
    WebhookFilters(None, "", CreatedAt, Desc)
  }

  /** A `Partial<WebhookFilters>`: `None` marks an absent key. For `status`,
      `Some(None)` is an explicit `null`. */
  datatype FiltersPatch = FiltersPatch(
    status: Option<Option<string>>,
    search: Option<string>,
    sortBy: Option<SortKey>,
    sortOrder: Option<SortOrder>)

  const EmptyPatch := FiltersPatch(None, None, None, None)

  /** `{ ...filters, ...patch }`. */
  function MergeFilters(filters: WebhookFilters, patch: FiltersPatch): WebhookFilters {
    WebhookFilters(
      patch.status.GetOr(filters.status),
      patch.search.GetOr(filters.search),
      patch.sortBy.GetOr(filters.sortBy),
      patch.sortOrder.GetOr(filters.sortOrder))
  }

  /** Each key present in the patch takes the patch's value; each absent key
      keeps the old one. */
  lemma MergeFiltersSpec(filters: WebhookFilters, patch: FiltersPatch)
    ensures var r := MergeFilters(filters, patch);
      && (patch.status.Some? ==> r.status == patch.status.value)
      && (patch.status.None? ==> r.status == filters.status)
      && (patch.search.Some? ==> r.search == patch.search.value)
      && (patch.search.None? ==> r.search == filters.search)
      && (patch.sortBy.Some? ==> r.sortBy == patch.sortBy.value)
      && (patch.sortBy.None? ==> r.sortBy == filters.sortBy)
      && (patch.sortOrder.Some? ==> r.sortOrder == patch.sortOrder.value)
      && (patch.sortOrder.None? ==> r.sortOrder == filters.sortOrder)
  {
  }

  /** `setFilters({})` changes nothing, and a patch applied twice acts once. */
  lemma MergeFiltersLaws(filters: WebhookFilters, patch: FiltersPatch)
    ensures MergeFilters(filters, EmptyPatch) == filters
    ensures MergeFilters(MergeFilters(filters, patch), patch) == MergeFilters(filters, patch)
  {
  }

  /** A patch naming every key replaces the filters whatever they were. */
  lemma FullPatchOverwrites(a: WebhookFilters, b: WebhookFilters, patch: FiltersPatch)
    requires patch.status.Some? && patch.search.Some? && patch.sortBy.Some? && patch.sortOrder.Some?
    ensures MergeFilters(a, patch) == MergeFilters(b, patch)
  {
  }

  /** What `partialize` hands to storage. */
  datatype PersistedState = PersistedState(filters: WebhookFilters)

  class FilterStore {
    var filters: WebhookFilters

    constructor()
      ensures filters == InitialFilters()
    {
      filters := InitialFilters();
    }

    method SetFilters(patch: FiltersPatch)
      modifies this
      ensures filters == MergeFilters(old(filters), patch)
    {
      filters := MergeFilters(filters, patch);
    }

    method ResetFilters()
      modifies this
      ensures filters == InitialFilters()
    {
      filters := InitialFilters();
    }

    /** `partialize`: only the filters are persisted. */
    function Partialize(): (p: PersistedState)
      reads this
      ensures p.filters == filters
    {
      PersistedState(filters)
    }
  }
}
