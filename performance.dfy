/** `debounce` from `src/utils/performance.ts`. The platform's timers are a
    list of armed timers, each with the id `setTimeout` returned and the
    arguments its callback captured; a timer fires only as an explicit step.
    Wall-clock time, `wait` and the call's `this` are not modelled: the order
    of calls and fires stands for time, and the context travels with the
    arguments. */
module Performance {
  import opened Wrappers

  datatype Timer<A> = Timer(id: nat, args: A)

  /** The debounced function's closure (`timeoutId`), the platform's armed
      timers, the next id `setTimeout` hands out, and the arguments `fn` has
      been invoked with so far, oldest first. */
  datatype DebounceState<A> = DebounceState(timeoutId: Option<nat>, timers: seq<Timer<A>>,
                                            nextId: nat, invoked: seq<A>)

  /** The armed timers without the one whose id is `id` (`clearTimeout`). */
  function Cleared<A>(ts: seq<Timer<A>>, id: nat): (r: seq<Timer<A>>)
    ensures |r| <= |ts|
    ensures forall t | t in r :: t in ts && t.id != id
    ensures forall t | t in ts && t.id != id :: t in r
  {
    if ts == [] then []
    else if ts[0].id == id then Cleared(ts[1..], id)
    else [ts[0]] + Cleared(ts[1..], id)
  }

  /** The state before the first call: nothing pending, nothing run. */
  function Initial<A>(): DebounceState<A> {
    DebounceState(None, [], 0, [])
  }

  /** At most one invocation is pending, and it is the one `timeoutId` names:
      either no timer is armed and `timeoutId` is undefined, or exactly one
      is, with the id `timeoutId` holds. */
  predicate Valid<A>(s: DebounceState<A>) {
    (s.timeoutId.None? && s.timers == [])
    || (s.timeoutId.Some? && |s.timers| == 1 && s.timers[0].id == s.timeoutId.value
        && s.timeoutId.value < s.nextId)
  }

  /** One call of the debounced function: cancel the pending timer if there
      is one, then arm a new one for these arguments and remember its id. */
  function Call<A>(s: DebounceState<A>, args: A): (r: DebounceState<A>)
    ensures r.timeoutId == Some(s.nextId) && r.nextId == s.nextId + 1 && r.invoked == s.invoked
    ensures |r.timers| >= 1 && r.timers[|r.timers| - 1] == Timer(s.nextId, args)
    ensures s.timeoutId.Some? ==> forall t | t in r.timers[..|r.timers| - 1] :: t in s.timers && t.id != s.timeoutId.value
  {
    var ts := if s.timeoutId.Some? then Cleared(s.timers, s.timeoutId.value) else s.timers;
    DebounceState(Some(s.nextId), ts + [Timer(s.nextId, args)], s.nextId + 1, s.invoked)
  }

  /** The platform fires the armed timer `id`: its callback clears
      `timeoutId` and runs `fn` with the arguments it captured. A cancelled or
      unknown id fires nothing. */
  function Fire<A>(s: DebounceState<A>, id: nat): (r: DebounceState<A>)
    ensures forall t | t in r.timers :: t in s.timers && t.id != id
    ensures r.nextId == s.nextId
    ensures r.invoked == s.invoked || |r.invoked| == |s.invoked| + 1
    ensures r.invoked[..|s.invoked|] == s.invoked
    ensures r.invoked != s.invoked ==> Timer(id, r.invoked[|s.invoked|]) in s.timers && r.timeoutId.None?
    ensures (forall t | t in s.timers :: t.id != id) ==> r == s
  {
    match Armed(s.timers, id)
    case Some(args) => DebounceState(None, Cleared(s.timers, id), s.nextId, s.invoked + [args])
    case None => s
  }

  /** The arguments captured by the first armed timer with id `id`. */
  function Armed<A>(ts: seq<Timer<A>>, id: nat): (r: Option<A>)
    ensures r.None? <==> forall t | t in ts :: t.id != id
    ensures r.Some? ==> Timer(id, r.value) in ts
  {
    if ts == [] then None
    else if ts[0].id == id then Some(ts[0].args)
    else Armed(ts[1..], id)
  }

  lemma ClearedSingle<A>(t: Timer<A>)
    ensures Cleared([t], t.id) == []
  {
  }

  /** A call cancels the pending timer before arming the new one, so exactly
      one timer, holding this call's arguments, is armed afterwards, and
      nothing runs. */
  lemma CallKeepsValid<A>(s: DebounceState<A>, args: A)
    requires Valid(s)
    ensures Valid(Call(s, args))
    ensures Call(s, args).timers == [Timer(s.nextId, args)]
    ensures Call(s, args).invoked == s.invoked
  {
    if s.timeoutId.Some? {
      ClearedSingle(s.timers[0]);
    }
  }

  /** Firing the pending timer runs `fn` once, with the arguments of the
      call that armed it, and leaves nothing pending; firing any other id
      changes nothing. */
  lemma FireKeepsValid<A>(s: DebounceState<A>, id: nat)
    requires Valid(s)
    ensures Valid(Fire(s, id))
    ensures s.timeoutId == Some(id) ==> Fire(s, id) == DebounceState(None, [], s.nextId, s.invoked + [s.timers[0].args])
    ensures s.timeoutId != Some(id) ==> Fire(s, id) == s
  {
    if s.timeoutId == Some(id) {
      ClearedSingle(s.timers[0]);
    }
  }

  /** A run of calls with no fire in between. */
  function CallAll<A>(s: DebounceState<A>, calls: seq<A>): DebounceState<A>
    decreases |calls|
  {
    if calls == [] then s else CallAll(Call(s, calls[0]), calls[1..])
  }

  /** After n >= 1 calls only the last one's timer is armed, and nothing has
      run. */
  lemma {:induction false} CallAllPending<A>(s: DebounceState<A>, calls: seq<A>)
    requires Valid(s) && calls != []
    ensures Valid(CallAll(s, calls))
    ensures CallAll(s, calls).timeoutId.Some?
    ensures CallAll(s, calls).timers == [Timer(CallAll(s, calls).timeoutId.value, calls[|calls| - 1])]
    ensures CallAll(s, calls).invoked == s.invoked
    decreases |calls|
  {
    CallKeepsValid(s, calls[0]);
    if |calls| > 1 {
      CallAllPending(Call(s, calls[0]), calls[1..]);
    }
  }

  /** n >= 1 calls followed by the pending timer's firing invoke `fn`
      exactly once, with the last call's arguments. */
  lemma CallsThenFireRunsLast<A>(s: DebounceState<A>, calls: seq<A>)
    requires Valid(s) && calls != []
    ensures CallAll(s, calls).timeoutId.Some?
    ensures var t := CallAll(s, calls);
            Fire(t, t.timeoutId.value).invoked == s.invoked + [calls[|calls| - 1]]
            && Valid(Fire(t, t.timeoutId.value)) && Fire(t, t.timeoutId.value).timeoutId.None?
  {
    var t := CallAll(s, calls);
    CallAllPending(s, calls);
    FireKeepsValid(t, t.timeoutId.value);
  }

  /** The debounced function and the platform timers it arms. */
  class Debounced<A> {
    var timeoutId: Option<nat>
    var timers: seq<Timer<A>>
    var nextId: nat
    var invoked: seq<A>

    function Snapshot(): DebounceState<A>
      reads this
    {
      DebounceState(timeoutId, timers, nextId, invoked)
    }

    /** `debounce(fn, wait)` */
    constructor()
      ensures Snapshot() == Initial()
      ensures Valid(Snapshot())
    {
      timeoutId, timers, nextId, invoked := None, [], 0, [];
    }

    /** A call of the debounced function. */
    method Invoke(args: A)
      modifies this
      requires Valid(Snapshot())
      ensures Snapshot() == Call(old(Snapshot()), args)
      ensures Valid(Snapshot()) && timers == [Timer(old(nextId), args)] && invoked == old(invoked)
    {
      CallKeepsValid(Snapshot(), args);
      if timeoutId.Some? {
        timers := Cleared(timers, timeoutId.value);
      }
      timers := timers + [Timer(nextId, args)];
      timeoutId := Some(nextId);
      nextId := nextId + 1;
    }

    /** The platform fires timer `id`. */
    method FireTimer(id: nat)
      modifies this
      requires Valid(Snapshot())
      ensures Snapshot() == Fire(old(Snapshot()), id)
      ensures Valid(Snapshot())
      ensures old(timeoutId) == Some(id) ==> invoked == old(invoked) + [old(timers)[0].args] && timeoutId.None?
      ensures old(timeoutId) != Some(id) ==> Snapshot() == old(Snapshot())
    {
      FireKeepsValid(Snapshot(), id);
      if timeoutId == Some(id) {
        var args := timers[0].args;
        timeoutId := None;
        timers := Cleared(timers, id);
        invoked := invoked + [args];
      }
    }
  }
}
