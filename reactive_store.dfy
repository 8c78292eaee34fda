/** The reactive store: one record-shaped state, replaced by shallow merges, with
    listeners that are called synchronously, in subscription order, after every
    `setState`.  The same algorithm is written twice in the repository
    (src/state/store.js and its compact twin src/core/state.js); this module
    models both.

    Listeners are abstract identities.  What a listener does when called is given
    by the store's `react` function (it returns normally or throws); the store
    records every call it makes in `trace`, which is the observable effect of
    notification in this model. */
module ReactiveStore {
  import opened Wrappers

  /** How a listener call ended. */
  datatype Outcome = Returned | Threw

  /** One listener call: the listener, the snapshot it was given, and how it ended. */
  datatype Notification<K, V> = Call(listener: nat, snapshot: map<K, V>, outcome: Outcome)

  /** The argument of `setState`: a plain patch object (`None` is `undefined`),
      or an updater function applied to the current state, whose `undefined`
      result (`None`) means "no merge". */
  datatype Updater<!K, !V> =
    | Patch(patch: Option<map<K, V>>)
    | Compute(f: map<K, V> -> Option<map<K, V>>)

  /** The argument of `subscribe`: a function, known by its identity, or some
      value that is not a function. */
  datatype Subscriber = Function(id: nat) | NotAFunction

  /** The function returned by `subscribe`. */
  datatype Unsubscriber = Remove(id: nat) | NoOp

  /** `typeof updater === 'function' ? updater(state) : updater`. */
  function Resolve<K, V>(updater: Updater<K, V>, s: map<K, V>): Option<map<K, V>> {
    match updater
    case Patch(p) => p
    case Compute(f) => f(s)
  }

  /** `{ ...state, ...result }`, skipped when the result is `undefined`: the keys
      of the result take its values, every other key keeps its value, and no key
      is lost. */
  function Merge<K, V>(s: map<K, V>, result: Option<map<K, V>>): (r: map<K, V>)
    ensures result.None? ==> r == s
    ensures result.Some? ==> r.Keys == s.Keys + result.value.Keys
    ensures result.Some? ==> forall k :: k in result.value ==> r[k] == result.value[k]
    ensures forall k :: k in s && (result.None? || k !in result.value) ==> k in r && r[k] == s[k]
  {
    if result.None? then s else s + result.value
  }

  /** Merging a one-key patch is writing that key. */
  lemma MergeOne<K, V>(s: map<K, V>, k: K, v: V)
    ensures Merge(s, Some(map[k := v])) == s[k := v]
  {
  }

  /** Merging a two-key patch is writing both keys. */
  lemma MergeTwo<K, V>(s: map<K, V>, k1: K, v1: V, k2: K, v2: V)
    ensures Merge(s, Some(map[k1 := v1, k2 := v2])) == s[k1 := v1][k2 := v2]
  {
  }

  /** The calls made by one notification round over `listeners` (a prefix of
      the listener set, during the loop): every listener is called exactly once,
      in insertion order, with the same post-merge snapshot, whatever the earlier
      listeners did. */
  function Round<K, V>(listeners: seq<nat>, react: (nat, map<K, V>) -> Outcome, s: map<K, V>)
    : (r: seq<Notification<K, V>>)
    ensures |r| == |listeners|
    ensures forall i :: 0 <= i < |r| ==> r[i].listener == listeners[i] && r[i].snapshot == s
    ensures forall i :: 0 <= i < |r| ==> r[i].outcome == react(listeners[i], s)
  {
    if listeners == [] then []
    else
      var last := listeners[|listeners| - 1];
      Round(listeners[..|listeners| - 1], react, s) + [Call(last, s, react(last, s))]
  }

  predicate NoDuplicates(xs: seq<nat>) {
    forall i, j :: 0 <= i < j < |xs| ==> xs[i] != xs[j]
  }

  /** `Set.prototype.add` on an insertion-ordered set: a new member goes last,
      a present one stays where it is. */
  function SetAdd(xs: seq<nat>, x: nat): (r: seq<nat>)
    ensures NoDuplicates(xs) ==> NoDuplicates(r)
    ensures x in r
    ensures forall y :: y in r <==> y in xs || y == x
  {
    if x in xs then xs else xs + [x]
  }

  /** `Set.prototype.delete`: `x` goes, the others keep their order. */
  function SetDelete(xs: seq<nat>, x: nat): (r: seq<nat>)
    ensures NoDuplicates(xs) ==> NoDuplicates(r)
    ensures x !in r
    ensures forall y :: y in r <==> y in xs && y != x
    ensures |r| <= |xs|
  {
    if xs == [] then []
    else
      var rest := SetDelete(xs[1..], x);
      if xs[0] == x then rest
      else
        assert NoDuplicates(xs) ==> xs[0] !in xs[1..];
        [xs[0]] + rest
  }

  /** Subscribing an already registered listener registers it once. */
  lemma {:induction false} SubscribeTwiceIsOnce(xs: seq<nat>, x: nat)
    requires NoDuplicates(xs)
    ensures SetAdd(SetAdd(xs, x), x) == SetAdd(xs, x)
    ensures |SetAdd(xs, x)| == |xs| + (if x in xs then 0 else 1)
  {
  }

  /** After its unsubscribe function has run, a listener receives no further call. */
  lemma UnsubscribedListenerNotCalled<K, V>(
    xs: seq<nat>, x: nat, react: (nat, map<K, V>) -> Outcome, s: map<K, V>)
    ensures forall i :: 0 <= i < |Round(SetDelete(xs, x), react, s)| ==>
              Round(SetDelete(xs, x), react, s)[i].listener != x
  {
  }

  class Store<K(==), V> {
    /** The current state (also what the `state` getter exposes). */
    var state: map<K, V>
    /** The listener set, in insertion order. */
    var listeners: seq<nat>
    /** Every listener call made so far, oldest first. */
    var trace: seq<Notification<K, V>>
    /** What each listener does when it is called with a snapshot. */
    const react: (nat, map<K, V>) -> Outcome

    ghost predicate Valid()
      reads this
    {
      NoDuplicates(listeners)
    }

    /** The calls one notification round makes with the current listeners. */
    function Notifications(s: map<K, V>): seq<Notification<K, V>>
      reads this
    {
      Round(listeners, react, s)
    }

    /** `createStore(initialState)`: a copy of the initial state and no listeners. */
    constructor (initialState: map<K, V>, react: (nat, map<K, V>) -> Outcome)
      ensures Valid()
      ensures state == initialState && listeners == [] && trace == []
      ensures this.react == react
    {
      state := initialState;
      listeners := [];
      trace := [];
      this.react := react;
    }

    /** `getState()`: a shallow copy, equal to the current state. */
    method GetState() returns (snapshot: map<K, V>)
      ensures snapshot == state
    {
      snapshot := state;
    }

    /** `setState(updater)`: merge the patch (or the updater's result) unless it is
        `undefined`, then notify every listener of the merged state.  A listener
        that throws neither stops the others nor undoes the merge. */
    method SetState(updater: Updater<K, V>)
      modifies this`state, this`trace
      ensures state == Merge(old(state), Resolve(updater, old(state)))
      ensures trace == old(trace) + Notifications(state)
    {
      var result := match updater
        case Patch(p) => p
        case Compute(f) => f(state);
      if result.Some? {
        state := state + result.value;
      }
      NotifyListeners();
    }

    /** `notifyListeners()`: call each listener with a fresh snapshot; an exception
        is caught (and logged) and the loop goes on. */
    method NotifyListeners()
      modifies this`trace
      ensures trace == old(trace) + Notifications(state)
    {
      var i := 0;
      while i < |listeners|
        invariant 0 <= i <= |listeners|
        invariant trace == old(trace) + Round(listeners[..i], react, state)
      {
        var snapshot := GetState();
        var outcome := react(listeners[i], snapshot);
        trace := trace + [Call(listeners[i], snapshot, outcome)];
        assert listeners[..i + 1][..i] == listeners[..i];
        i := i + 1;
      }
      assert listeners[..i] == listeners;
    }

    /** `subscribe(listener)`: a non-function registers nothing and gets a no-op;
        a function is added to the set (once) and gets its unsubscribe function. */
    method Subscribe(subscriber: Subscriber) returns (unsubscribe: Unsubscriber)
      requires Valid()
      modifies this`listeners
      ensures Valid()
      ensures listeners == (if subscriber.Function? then SetAdd(old(listeners), subscriber.id)
                                                    else old(listeners))
      ensures unsubscribe == (if subscriber.Function? then Remove(subscriber.id) else NoOp)
    {
      if subscriber.NotAFunction? {
        return NoOp;
      }
      listeners := SetAdd(listeners, subscriber.id);
      unsubscribe := Remove(subscriber.id);
    }

    /** Running the function `subscribe` returned. */
    method Unsubscribe(unsubscribe: Unsubscriber)
      requires Valid()
      modifies this`listeners
      ensures Valid()
      ensures listeners == (if unsubscribe.Remove? then SetDelete(old(listeners), unsubscribe.id)
                                                   else old(listeners))
    {
      if unsubscribe.Remove? {
        listeners := SetDelete(listeners, unsubscribe.id);
      }
    }
  }
}
