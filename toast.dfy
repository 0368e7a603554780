/** The toast notification store of `components/ui/use-toast.ts`: a pure
    reducer over the list of open toasts, a wrapping id counter, and the
    hook methods that build toasts and dispatch actions. */
module Toast {
  import opened Options
  import opened Sequences
  import Decimal

  /** At most this many toasts are kept. */
  const TOAST_LIMIT: nat := 5

  /** `Number.MAX_SAFE_INTEGER`, the modulus of the id counter. */
  const MAX_SAFE_INTEGER: nat := 9007199254740991

  /** A toast in the store. Rendering-only members (`action`, callbacks,
      `duration`) are not part of the model. */
  datatype Toast = Toast(
    id: string,
    title: Option<string>,
    description: Option<string>,
    variant: Option<string>,
    open: Option<bool>)

  /** A partial toast, as `toast()`, `update()` and `UPDATE_TOAST` take it:
      `None` marks a key that is absent. */
  datatype ToastProps = ToastProps(
    id: Option<string>,
    title: Option<string>,
    description: Option<string>,
    variant: Option<string>,
    open: Option<bool>)

  datatype Action =
    | AddToast(toast: Toast)
    | UpdateToast(props: ToastProps)
    | DismissToast(toastId: Option<string>)
    | RemoveToast(toastId: Option<string>)

  datatype State = State(toasts: seq<Toast>)

  function Min(a: nat, b: nat): nat {
    if a < b then a else b
  }

  /** The value of one key after `{ ...base, ...over }`. */
  function Override<T>(base: Option<T>, over: Option<T>): Option<T> {
    if over.Some? then over else base
  }

  /** `{ ...t, ...props }`: each key present in `props` replaces the toast's own. */
  function Merge(t: Toast, props: ToastProps): Toast {
    Toast(
      props.id.GetOr(t.id),
      Override(t.title, props.title),
      Override(t.description, props.description),
      Override(t.variant, props.variant),
      Override(t.open, props.open))
  }

  function Closed(t: Toast): Toast {
    t.(open := Some(false))
  }

  function WithoutId(id: string): Toast -> bool {
    (t: Toast) => t.id != id
  }

  /** The reducer. */
  function Reduce(state: State, action: Action): State {
    match action
    case AddToast(t) =>
      State(([t] + state.toasts)[..Min(TOAST_LIMIT, |state.toasts| + 1)])
    case UpdateToast(props) =>
      State(Map(state.toasts, (t: Toast) => if props.id == Some(t.id) then Merge(t, props) else t))
    case DismissToast(None) =>
      State(Map(state.toasts, Closed))
    case DismissToast(Some(id)) =>
      State(Map(state.toasts, (t: Toast) => if t.id == id then Closed(t) else t))
    case RemoveToast(None) =>
      State([])
    case RemoveToast(Some(id)) =>
      State(Filter(state.toasts, WithoutId(id)))
  }

  /** ADD_TOAST puts the new toast first, keeps at most TOAST_LIMIT toasts, and
      keeps the newest of the previous ones in their order, dropping the oldest. */
  lemma AddToastSpec(state: State, t: Toast)
    ensures var r := Reduce(state, AddToast(t)).toasts;
      && |r| == Min(TOAST_LIMIT, |state.toasts| + 1)
      && r[0] == t
      && r[1..] == state.toasts[..Min(TOAST_LIMIT - 1, |state.toasts|)]
  {
    var r := Reduce(state, AddToast(t)).toasts;
    assert r[1..] == ([t] + state.toasts)[1..Min(TOAST_LIMIT, |state.toasts| + 1)];
  }

  /** No action takes a store within the limit beyond it. */
  lemma ReduceKeepsLimit(state: State, action: Action)
    requires |state.toasts| <= TOAST_LIMIT
    ensures |Reduce(state, action).toasts| <= TOAST_LIMIT
  {
  }

  /** UPDATE_TOAST keeps length, order and ids; toasts whose id equals the
      action's get its keys merged over their own; every other toast is unchanged. */
  lemma UpdateToastSpec(state: State, props: ToastProps)
    ensures var r := Reduce(state, UpdateToast(props)).toasts;
      && |r| == |state.toasts|
      && forall i :: 0 <= i < |r| ==>
           r[i].id == state.toasts[i].id &&
           (props.id == Some(state.toasts[i].id) ==> r[i] == Merge(state.toasts[i], props)) &&
           (props.id != Some(state.toasts[i].id) ==> r[i] == state.toasts[i])
  {
  }

  /** An update without an id matches no toast. */
  lemma UpdateWithoutIdIsNoOp(state: State, props: ToastProps)
    requires props.id.None?
    ensures Reduce(state, UpdateToast(props)) == state
  {
    var r := Reduce(state, UpdateToast(props)).toasts;
    assert r == state.toasts;
  }

  /** Merging the same keys twice is merging them once. */
  lemma MergeIdempotent(t: Toast, props: ToastProps)
    ensures Merge(Merge(t, props), props) == Merge(t, props)
  {
  }

  lemma UpdateIdempotent(state: State, props: ToastProps)
    ensures Reduce(Reduce(state, UpdateToast(props)), UpdateToast(props)) == Reduce(state, UpdateToast(props))
  {
    var once := Reduce(state, UpdateToast(props)).toasts;
    var twice := Reduce(State(once), UpdateToast(props)).toasts;
    forall i | 0 <= i < |once| ensures twice[i] == once[i] {
      MergeIdempotent(state.toasts[i], props);
    }
  }

  /** DISMISS_TOAST closes every toast (no id) or the toasts with that id;
      length, order and every other key stay as they were. */
  lemma DismissToastSpec(state: State, toastId: Option<string>)
    ensures var r := Reduce(state, DismissToast(toastId)).toasts;
      && |r| == |state.toasts|
      && forall i :: 0 <= i < |r| ==>
           r[i] == (if toastId.None? || toastId == Some(state.toasts[i].id)
                    then state.toasts[i].(open := Some(false))
                    else state.toasts[i])
  {
  }

  lemma DismissIdempotent(state: State, toastId: Option<string>)
    ensures var once := Reduce(state, DismissToast(toastId));
      Reduce(once, DismissToast(toastId)) == once
  {
    var once := Reduce(state, DismissToast(toastId)).toasts;
    var twice := Reduce(State(once), DismissToast(toastId)).toasts;
    DismissToastSpec(state, toastId);
    DismissToastSpec(State(once), toastId);
    assert twice == once;
  }

  /** REMOVE_TOAST without an id empties the store; with an id it drops exactly
      the toasts carrying it and keeps the rest in order. */
  lemma RemoveToastSpec(state: State, id: string, before: seq<Toast>, after: seq<Toast>)
    ensures Reduce(state, RemoveToast(None)).toasts == []
    ensures forall t :: t in Reduce(state, RemoveToast(Some(id))).toasts <==> t in state.toasts && t.id != id
    ensures state.toasts == before + after ==>
      Reduce(state, RemoveToast(Some(id))).toasts ==
      Reduce(State(before), RemoveToast(Some(id))).toasts + Reduce(State(after), RemoveToast(Some(id))).toasts
  {
    var keep := WithoutId(id);
    assert Reduce(state, RemoveToast(Some(id))).toasts == Filter(state.toasts, keep);
    if state.toasts == before + after {
      FilterAppend(before, after, keep);
      assert Reduce(State(before), RemoveToast(Some(id))).toasts == Filter(before, keep);
      assert Reduce(State(after), RemoveToast(Some(id))).toasts == Filter(after, keep);
    }
  }

  lemma RemoveIdempotent(state: State, toastId: Option<string>)
    ensures var once := Reduce(state, RemoveToast(toastId));
      Reduce(once, RemoveToast(toastId)) == once
  {
    if toastId.Some? {
      FilterIdempotent(state.toasts, WithoutId(toastId.value));
    }
  }

  /** The id counter's successor: one more, wrapping at MAX_SAFE_INTEGER. */
  function NextCount(count: nat): nat {
    (count + 1) % MAX_SAFE_INTEGER
  }

  /** The counter after `k` calls of `genId`. */
  function CountAfter(count: nat, k: nat): nat
    decreases k
  {
    if k == 0 then count else NextCount(CountAfter(count, k - 1))
  }

  lemma {:induction false} CountAfterIsModular(count: nat, k: nat)
    requires count < MAX_SAFE_INTEGER
    ensures CountAfter(count, k) == (count + k) % MAX_SAFE_INTEGER
    decreases k
  {
    if k > 0 {
      CountAfterIsModular(count, k - 1);
      SuccessorMod(count + k - 1);
    }
  }

  lemma SuccessorMod(x: nat)
    ensures NextCount(x % MAX_SAFE_INTEGER) == (x + 1) % MAX_SAFE_INTEGER
  {
  }

  lemma CountsDiffer(a: nat, b: nat)
    requires a < b && b - a < MAX_SAFE_INTEGER
    ensures a % MAX_SAFE_INTEGER != b % MAX_SAFE_INTEGER
  {
  }

  lemma CountsWrap(a: nat)
    ensures (a + MAX_SAFE_INTEGER) % MAX_SAFE_INTEGER == a % MAX_SAFE_INTEGER
  {
  }

  /** The ids of any MAX_SAFE_INTEGER consecutive calls are pairwise distinct,
      and the next call after that many wraps around to the first id. */
  lemma GeneratedIdsDistinct(count: nat, j: nat, k: nat)
    requires count < MAX_SAFE_INTEGER
    requires j < k
    ensures k - j < MAX_SAFE_INTEGER ==>
      Decimal.NatToString(CountAfter(count, j)) != Decimal.NatToString(CountAfter(count, k))
    ensures k - j == MAX_SAFE_INTEGER ==>
      Decimal.NatToString(CountAfter(count, j)) == Decimal.NatToString(CountAfter(count, k))
  {
    if k - j < MAX_SAFE_INTEGER {
      CountsWithinPeriodDiffer(count, j, k);
      Decimal.NatToStringInjective(CountAfter(count, j), CountAfter(count, k));
    } else if k - j == MAX_SAFE_INTEGER {
      CountsAfterPeriodAgree(count, j, k);
    }
  }

  lemma CountsWithinPeriodDiffer(count: nat, j: nat, k: nat)
    requires count < MAX_SAFE_INTEGER
    requires j < k && k - j < MAX_SAFE_INTEGER
    ensures CountAfter(count, j) != CountAfter(count, k)
  {
    CountAfterIsModular(count, j);
    CountAfterIsModular(count, k);
    CountsDiffer(count + j, count + k);
  }

  lemma CountsAfterPeriodAgree(count: nat, j: nat, k: nat)
    requires count < MAX_SAFE_INTEGER
    requires k == j + MAX_SAFE_INTEGER
    ensures CountAfter(count, j) == CountAfter(count, k)
  {
    CountAfterIsModular(count, j);
    CountAfterIsModular(count, k);
    assert count + k == count + j + MAX_SAFE_INTEGER;
    CountsWrap(count + j);
  }

  /** The module-level `count` behind `genId`. */
  class IdCounter {
    var count: nat

    ghost predicate Valid()
      reads this
    {
      count < MAX_SAFE_INTEGER
    }

    constructor()
      ensures Valid() && count == 0
    {
      count := 0;
    }

    /** `genId()`: advances the counter and returns its decimal rendering. */
    method GenId() returns (id: string)
      requires Valid()
      modifies this
      ensures Valid()
      ensures count == NextCount(old(count))
      ensures id == Decimal.NatToString(count)
    {
      count := (count + 1) % MAX_SAFE_INTEGER;
      id := Decimal.NatToString(count);
    }
  }

  /** `props.id` is truthy: present and non-empty. */
  predicate HasOwnId(props: ToastProps) {
    props.id.Some? && props.id.value != ""
  }

  /** The toast `toast()` adds: the caller's keys, the chosen id, and `open: true`. */
  function NewToast(props: ToastProps, id: string): (t: Toast)
    ensures t.id == id && t.open == Some(true)
    ensures t.title == props.title && t.description == props.description && t.variant == props.variant
  {
    Toast(id, props.title, props.description, props.variant, Some(true))
  }

  /** `{ title, description, variant, ...props }` as `success()` and `error()` build it. */
  function WithVariant(title: string, description: Option<string>, variant: string, props: ToastProps): (r: ToastProps)
    ensures r.variant == if props.variant.Some? then props.variant else Some(variant)
    ensures r.title == if props.title.Some? then props.title else Some(title)
    ensures r.description == if props.description.Some? then props.description else description
    ensures r.id == props.id && r.open == props.open
  {
    ToastProps(
      props.id,
      Override(Some(title), props.title),
      Override(description, props.description),
      Override(Some(variant), props.variant),
      props.open)
  }

  /** What the hook as written holds: `useState`'s setter is named `dispatch`,
      so the value it is called with, an action object, becomes the whole state. */
  datatype HookValue = StateValue(state: State) | ActionValue(action: Action)

  /** `state.toasts`: an action object has no `toasts` key, so it reads as `undefined`. */
  function ToastsField(v: HookValue): (r: Option<seq<Toast>>)
    ensures r.Some? <==> v.StateValue?
    ensures v.StateValue? ==> r == Some(v.state.toasts)
  {
    match v
    case StateValue(state) => Some(state.toasts)
    case ActionValue(_) => None
  }

  /** `dispatch(action)` as written: the setter replaces the value; `reducer` is never called. */
  function DispatchAsWritten(v: HookValue, action: Action): (r: HookValue)
    ensures r.ActionValue? && r.action == action
  {
    ActionValue(action)
  }

  /** The first `toast()` on an empty store leaves the hook without a toast
      list at all, where reducing the action gives the one open toast. */
  lemma DispatchAsWrittenLosesToasts(props: ToastProps, id: string)
    ensures ToastsField(DispatchAsWritten(StateValue(State([])), AddToast(NewToast(props, id)))) == None
    ensures Reduce(State([]), AddToast(NewToast(props, id))).toasts == [NewToast(props, id)]
  {
  }

  /** The state behind one `useToast()` call, sharing the module-level counter.
      Actions go through `Reduce`, as `useReducer(reducer, { toasts: [] })`
      would do it. */
  class ToastHook {
    var state: State
    const ids: IdCounter

    constructor(ids: IdCounter)
      ensures state == State([]) && this.ids == ids
    {
      state := State([]);
      this.ids := ids;
    }

    method Dispatch(action: Action)
      modifies this
      ensures state == Reduce(old(state), action)
    {
      state := Reduce(state, action);
    }

    /** `toast(props)`: the caller's id when truthy, a fresh one otherwise; the
        toast is added open, in front of the others. */
    method Show(props: ToastProps) returns (id: string)
      requires ids.Valid()
      modifies this, ids
      ensures ids.Valid()
      ensures HasOwnId(props) ==> id == props.id.value && ids.count == old(ids.count)
      ensures !HasOwnId(props) ==>
        ids.count == NextCount(old(ids.count)) && id == Decimal.NatToString(ids.count)
      ensures state == Reduce(old(state), AddToast(NewToast(props, id)))
    {
      if HasOwnId(props) {
        id := props.id.value;
      } else {
        id := ids.GenId();
      }
      Dispatch(AddToast(NewToast(props, id)));
    }

    /** `success(title, description, props)`: variant "success" unless `props` sets one. */
    method Success(title: string, description: Option<string>, props: ToastProps) returns (id: string)
      requires ids.Valid()
      modifies this, ids
      ensures ids.Valid()
      ensures HasOwnId(props) ==> id == props.id.value && ids.count == old(ids.count)
      ensures !HasOwnId(props) ==>
        ids.count == NextCount(old(ids.count)) && id == Decimal.NatToString(ids.count)
      ensures state == Reduce(old(state), AddToast(NewToast(WithVariant(title, description, "success", props), id)))
    {
      id := Show(WithVariant(title, description, "success", props));
    }

    /** `error(title, description, props)`: variant "destructive" unless `props` sets one. */
    method Error(title: string, description: Option<string>, props: ToastProps) returns (id: string)
      requires ids.Valid()
      modifies this, ids
      ensures ids.Valid()
      ensures HasOwnId(props) ==> id == props.id.value && ids.count == old(ids.count)
      ensures !HasOwnId(props) ==>
        ids.count == NextCount(old(ids.count)) && id == Decimal.NatToString(ids.count)
      ensures state == Reduce(old(state), AddToast(NewToast(WithVariant(title, description, "destructive", props), id)))
    {
      id := Show(WithVariant(title, description, "destructive", props));
    }

    /** The `update` handle `toast()` returns: merges `props` into the toast `id`. */
    method Update(id: string, props: ToastProps)
      modifies this
      ensures state == Reduce(old(state), UpdateToast(props.(id := Some(id))))
    {
      Dispatch(UpdateToast(props.(id := Some(id))));
    }

    /** The hook's `dismiss(toastId?)`, and the handle `toast()` returns. */
    method Dismiss(toastId: Option<string>)
      modifies this
      ensures state == Reduce(old(state), DismissToast(toastId))
    {
      Dispatch(DismissToast(toastId));
    }
  }
}
