/**
 * The browser timer API (`setTimeout`, `setInterval`, `clearTimeout`,
 * `clearInterval`) as a deterministic scheduler over an integer millisecond
 * clock. A pending timer is a map entry from its handle to its due time, its
 * period (present for an interval) and the task its callback performs.
 * Handles come from a counter that starts at 1, so a handle is never 0 (a
 * JavaScript truthiness test on a handle is a presence test) and never reused.
 * Timers fire punctually, in order of due time and, at equal due times, in
 * order of registration.
 */
module Timers {
  import opened Wrappers

  type Handle = nat

  datatype Timer<T> = Timer(due: int, period: Option<nat>, task: T)

  /** What `FireNext` reports: the handle that fired and the task to run. */
  datatype Fired<T> = Fired(handle: Handle, task: T)

  /** `h` fires no later than `k`: earlier due time, or same due time and registered first. */
  predicate FiresBefore<T>(m: map<Handle, Timer<T>>, h: Handle, k: Handle)
    requires h in m && k in m
  {
    m[h].due < m[k].due || (m[h].due == m[k].due && h <= k)
  }

  /** `h` is the pending timer that the event loop runs next. */
  predicate IsEarliest<T>(m: map<Handle, Timer<T>>, h: Handle) {
    h in m && forall k | k in m :: FiresBefore(m, h, k)
  }

  /** The pending timers once `h` has fired: a timeout is gone, an interval is re-armed one period later. */
  function AfterFiring<T>(m: map<Handle, Timer<T>>, h: Handle): (r: map<Handle, Timer<T>>)
    requires h in m
    ensures m[h].period.None? <==> h !in r
    ensures r.Keys <= m.Keys
    ensures forall k | k in m && k != h :: k in r && r[k] == m[k]
    ensures h in r ==> r[h].task == m[h].task && r[h].period == m[h].period
    ensures h in r ==> r[h].due == m[h].due + m[h].period.value
  {
    match m[h].period
    case None => m - {h}
    case Some(p) => m[h := m[h].(due := m[h].due + p)]
  }

  /** At most one pending timer can be the next to fire. */
  lemma EarliestUnique<T>(m: map<Handle, Timer<T>>, h: Handle, k: Handle)
    requires IsEarliest(m, h) && IsEarliest(m, k)
    ensures h == k
  {
    assert FiresBefore(m, h, k) && FiresBefore(m, k, h);
  }

  class Scheduler<T> {
    var now: int
    var timers: map<Handle, Timer<T>>
    var next: Handle

    ghost predicate Valid()
      reads this
    {
      1 <= next && forall h | h in timers :: 1 <= h < next && now <= timers[h].due
    }

    /** `h` was handed out and is no longer pending: it has fired as a timeout or was cleared. */
    ghost predicate Retired(h: Handle)
      reads this
    {
      1 <= h < next && h !in timers
    }

    constructor ()
      ensures Valid()
      ensures now == 0 && timers == map[] && next == 1
    {
      now, timers, next := 0, map[], 1;
    }

    /** `window.setTimeout(task, delay)`. */
    method SetTimeout(delay: nat, task: T) returns (h: Handle)
      requires Valid()
      modifies this
      ensures Valid()
      ensures h == old(next) && h !in old(timers) && h >= 1
      ensures now == old(now) && next == old(next) + 1
      ensures timers == old(timers)[h := Timer(now + delay, None, task)]
      ensures forall k | old(Retired(k)) :: Retired(k)
    {
      h := next;
      timers := timers[h := Timer(now + delay, None, task)];
      next := next + 1;
    }

    /** `window.setInterval(task, delay)`: first due after `delay`, then every `delay`. */
    method SetInterval(delay: nat, task: T) returns (h: Handle)
      requires Valid()
      modifies this
      ensures Valid()
      ensures h == old(next) && h !in old(timers) && h >= 1
      ensures now == old(now) && next == old(next) + 1
      ensures timers == old(timers)[h := Timer(now + delay, Some(delay), task)]
      ensures forall k | old(Retired(k)) :: Retired(k)
    {
      h := next;
      timers := timers[h := Timer(now + delay, Some(delay), task)];
      next := next + 1;
    }

    /** `clearTimeout(h)` / `clearInterval(h)`: the browser uses one pool for both;
        clearing a handle that already fired or was already cleared does nothing. */
    method Clear(h: Handle)
      requires Valid()
      modifies this
      ensures Valid()
      ensures now == old(now) && next == old(next)
      ensures timers == old(timers) - {h}
      ensures h in old(timers) ==> Retired(h)
      ensures forall k | old(Retired(k)) :: Retired(k)
    {
      timers := timers - {h};
    }

    /** Finds the pending timer the event loop runs next, if any. */
    method Earliest() returns (r: Option<Handle>)
      ensures r.None? <==> timers == map[]
      ensures r.Some? ==> IsEarliest(timers, r.value)
    {
      var rest := timers.Keys;
      r := None;
      while rest != {}
        invariant rest <= timers.Keys
        invariant r.None? ==> rest == timers.Keys
        invariant r.Some? ==> r.value in timers && r.value !in rest
        invariant r.Some? ==> forall k | k in timers && k !in rest :: FiresBefore(timers, r.value, k)
        decreases rest
      {
        var k :| k in rest;
        if r.None? || !FiresBefore(timers, r.value, k) {
          r := Some(k);
        }
        rest := rest - {k};
      }
    }

    /** One turn of the event loop: the clock moves to the earliest due time and
        that timer's task is handed back to be run. */
    method FireNext() returns (fired: Option<Fired<T>>)
      requires Valid()
      modifies this
      ensures Valid()
      ensures next == old(next)
      ensures fired.None? <==> old(timers) == map[]
      ensures fired.None? ==> timers == old(timers) && now == old(now)
      ensures fired.Some? ==>
        && IsEarliest(old(timers), fired.value.handle)
        && fired.value.task == old(timers)[fired.value.handle].task
        && now == old(timers)[fired.value.handle].due
        && timers == AfterFiring(old(timers), fired.value.handle)
      ensures forall k | old(Retired(k)) :: Retired(k)
    {
      var e := Earliest();
      match e
      case None =>
        fired := None;
      case Some(h) =>
        var t := timers[h];
        now := t.due;
        timers := AfterFiring(timers, h);
        fired := Some(Fired(h, t.task));
    }

    /** Time passes with no timer due in between (input events arrive between timers). */
    method AdvanceTo(t: int)
      requires Valid()
      requires now <= t
      requires forall h | h in timers :: t <= timers[h].due
      modifies this
      ensures Valid()
      ensures now == t && timers == old(timers) && next == old(next)
    {
      now := t;
    }
  }
}
