/**
 * The `useAsync` hook: three state cells (`isLoading`, `error`, `data`)
 * driven by `fetchData`, which an effect starts on mount and whenever the
 * dependency list changes, unless `skip` is set; `refetch` is `fetchData`.
 *
 * A run is split at its one suspension point: `FetchData` is everything
 * before `await callback()`, and `Resolve` / `Reject` are the two ways the
 * awaited producer can come back, each followed by the `finally` block.
 */
module UseAsync {
  import opened Wrappers

  /** The three cells as one value, for stating phases. */
  datatype FetchState<T, E> = FetchState(isLoading: bool, error: Option<E>, data: Option<T>)

  /** Before any run: not loading, no error, no data. */
  predicate IsIdle<T, E>(s: FetchState<T, E>)
  {
    !s.isLoading && s.error.None? && s.data.None?
  }

  /** A run has started and not settled. */
  predicate IsPending<T, E>(s: FetchState<T, E>)
  {
    s.isLoading && s.error.None? && s.data.None?
  }

  /** The last run produced `data`. */
  predicate IsSuccess<T, E>(s: FetchState<T, E>)
  {
    !s.isLoading && s.error.None? && s.data.Some?
  }

  /** The last run failed with `error`. */
  predicate IsFailure<T, E>(s: FetchState<T, E>)
  {
    !s.isLoading && s.error.Some? && s.data.None?
  }

  /** The hook's state for one component instance. */
  class AsyncHook<D(==), T, E> {
    var isLoading: bool
    var error: Option<E>
    var data: Option<T>
    /** `skip` as passed on the latest render. */
    var skip: bool
    /** The dependency list of the latest render. */
    var deps: seq<D>

    /** Runs started and not yet settled. */
    ghost var pending: nat
    /** Set when a run starts while another is still pending. */
    ghost var overlapped: bool
    /** Runs started so far, automatic and manual. */
    ghost var runs: nat

    /** The three cells as one value. */
    function State(): (s: FetchState<T, E>)
      reads this
    {
      FetchState(isLoading, error, data)
    }

    /**
     * While runs do not overlap, the cells are in exactly one phase: pending
     * while a run is outstanding, and never both `error` and `data` otherwise.
     */
    ghost predicate Valid()
      reads this
    {
      !overlapped ==>
        pending <= 1 &&
        (pending == 1 ==> IsPending(State())) &&
        (pending == 0 ==> IsIdle(State()) || IsSuccess(State()) || IsFailure(State()))
    }

    /** First render: the three `useState` initial values. */
    constructor (deps: seq<D>, skip: bool)
      ensures Valid()
      ensures IsIdle(State())
      ensures this.deps == deps && this.skip == skip
      ensures pending == 0 && !overlapped && runs == 0
    {
      isLoading, error, data := false, None, None;
      this.deps, this.skip := deps, skip;
      pending, overlapped, runs := 0, false, 0;
    }

    /**
     * `fetchData` up to its `await`: set `isLoading`, clear `error` and
     * `data`, and call the producer.
     */
    method FetchData()
      requires Valid()
      modifies this
      ensures Valid()
      ensures IsPending(State())
      ensures skip == old(skip) && deps == old(deps)
      ensures pending == old(pending) + 1 && runs == old(runs) + 1
      ensures overlapped == (old(pending) > 0)
    {
      isLoading := true;
      error := None;
      data := None;
      overlapped := pending > 0;
      pending := pending + 1;
      runs := runs + 1;
    }

    /** `refetch`: the very same `fetchData`. */
    method Refetch()
      requires Valid()
      modifies this
      ensures Valid()
      ensures IsPending(State())
      ensures skip == old(skip) && deps == old(deps)
      ensures pending == old(pending) + 1 && runs == old(runs) + 1
      ensures overlapped == (old(pending) > 0)
    {
      FetchData();
    }

    /**
     * The producer of a started run resolved with `v`: store it in `data`,
     * then `finally` clears `isLoading`; `error` is left as it is.
     */
    method Resolve(v: T)
      requires Valid() && pending > 0
      modifies this
      ensures Valid()
      ensures State() == FetchState(false, old(error), Some(v))
      ensures !overlapped ==> IsSuccess(State())
      ensures skip == old(skip) && deps == old(deps) && runs == old(runs)
      ensures pending == old(pending) - 1 && overlapped == old(overlapped)
    {
      data := Some(v);
      isLoading := false;
      pending := pending - 1;
    }

    /**
     * The producer of a started run rejected with `e`: the catch stores it
     * verbatim in `error` and does not re-throw, then `finally` clears
     * `isLoading`; `data` is left as it is.
     */
    method Reject(e: E)
      requires Valid() && pending > 0
      modifies this
      ensures Valid()
      ensures State() == FetchState(false, Some(e), old(data))
      ensures !overlapped ==> IsFailure(State())
      ensures skip == old(skip) && deps == old(deps) && runs == old(runs)
      ensures pending == old(pending) - 1 && overlapped == old(overlapped)
    {
      error := Some(e);
      isLoading := false;
      pending := pending - 1;
    }

    /** The effect after the first commit: run unless `skip`. */
    method Mount()
      requires Valid()
      modifies this
      ensures Valid()
      ensures skip == old(skip) && deps == old(deps)
      ensures old(skip) ==>
        State() == old(State()) && runs == old(runs) && pending == old(pending) && overlapped == old(overlapped)
      ensures !old(skip) ==>
        IsPending(State()) && runs == old(runs) + 1 && pending == old(pending) + 1 && overlapped == (old(pending) > 0)
    {
      if !skip {
        FetchData();
      }
    }

    /**
     * A later render with `newDeps` and `newSkip`: the effect runs again
     * only when the dependency list differs from the previous render's,
     * and then starts a run unless `newSkip` is set.
     */
    method Rerender(newDeps: seq<D>, newSkip: bool)
      requires Valid()
      modifies this
      ensures Valid()
      ensures skip == newSkip && deps == newDeps
      ensures newDeps == old(deps) || newSkip ==>
        State() == old(State()) && runs == old(runs) && pending == old(pending) && overlapped == old(overlapped)
      ensures newDeps != old(deps) && !newSkip ==>
        IsPending(State()) && runs == old(runs) + 1 && pending == old(pending) + 1 && overlapped == (old(pending) > 0)
    {
      skip := newSkip;
      if newDeps != deps {
        deps := newDeps;
        if !newSkip {
          FetchData();
        }
      }
    }
  }

  /**
   * With the default empty dependency list and `skip` false, mounting and
   * then any number of renders start exactly one run, which is pending.
   */
  method DefaultDepsRunOnce<D(==), T, E>(renders: nat) returns (hook: AsyncHook<D, T, E>)
    ensures hook.Valid() && hook.deps == [] && !hook.skip
    ensures hook.runs == 1 && hook.pending == 1 && IsPending(hook.State())
  {
    hook := new AsyncHook<D, T, E>([], false);
    hook.Mount();
    var k := 0;
    while k < renders
      invariant 0 <= k <= renders
      invariant hook.Valid() && hook.deps == [] && !hook.skip
      invariant hook.runs == 1 && hook.pending == 1 && IsPending(hook.State())
    {
      hook.Rerender([], false);
      k := k + 1;
    }
  }

  /**
   * With `skip` set, mount and renders with any deps start nothing and the
   * hook stays idle; `refetch` then starts a run.
   */
  method SkipStaysIdle<D(==), T, E>(deps0: seq<D>, renders: seq<seq<D>>)
    returns (idleBeforeRefetch: bool, hook: AsyncHook<D, T, E>)
    ensures idleBeforeRefetch
    ensures hook.Valid() && hook.skip
    ensures hook.runs == 1 && IsPending(hook.State())
  {
    hook := new AsyncHook<D, T, E>(deps0, true);
    hook.Mount();
    var k := 0;
    while k < |renders|
      invariant 0 <= k <= |renders|
      invariant hook.Valid() && hook.skip
      invariant IsIdle(hook.State()) && hook.runs == 0 && hook.pending == 0
    {
      hook.Rerender(renders[k], true);
      k := k + 1;
    }
    idleBeforeRefetch := IsIdle(hook.State());
    hook.Refetch();
  }

  /**
   * One run on its own, settled with `Some(v)` or with the failure `e`:
   * success holds exactly the value, failure exactly the error, never both.
   */
  method SingleRunSettles<D(==), T, E>(deps: seq<D>, outcome: Option<T>, e: E)
    returns (hook: AsyncHook<D, T, E>)
    ensures hook.Valid() && hook.pending == 0 && hook.runs == 1
    ensures outcome.Some? ==> hook.State() == FetchState(false, None, outcome)
    ensures outcome.None? ==> hook.State() == FetchState(false, Some(e), None)
    ensures !(hook.error.Some? && hook.data.Some?)
  {
    hook := new AsyncHook<D, T, E>(deps, false);
    hook.Mount();
    match outcome
    case Some(v) => hook.Resolve(v);
    case None => hook.Reject(e);
  }

  /**
   * Two overlapping runs, the first resolving with `v` and the second then
   * rejecting with `e`: the last to settle wins and both cells end up set.
   */
  method OverlapLastSettledWins<D(==), T, E>(deps: seq<D>, v: T, e: E)
    returns (hook: AsyncHook<D, T, E>)
    ensures hook.Valid() && hook.overlapped && hook.pending == 0 && hook.runs == 2
    ensures hook.State() == FetchState(false, Some(e), Some(v))
  {
    hook := new AsyncHook<D, T, E>(deps, false);
    hook.Mount();
    hook.Refetch();
    hook.Resolve(v);
    hook.Reject(e);
  }
}
