/**
 * The timers the drum pad keeps pending, and the two invariants that say which
 * of them may exist: the repeat invariant (one live interval per held pad and
 * none otherwise) and the demo invariant (the demo's timeouts are tracked, and
 * the end of the demo comes after every hit). Each lemma shows that one step of
 * src/components/DrumPad.tsx keeps them.
 */
module DrumSchedule {
  import opened Wrappers
  import opened Timers
  import opened DrumData

  /** What a timer callback does when it fires. */
  datatype Task =
    | RepeatTick(pad: PadId)           // the interval of a held pad
    | ClearActive                      // `setActivePad(null)` after a pulse
    | DemoHit(time: nat, pad: PadId)   // one event of the demo
    | DemoEnd                          // the end of the demo
    | ProgressReset                    // `setDemoProgress(0)` one second after the end
  {
    predicate IsDemo() { DemoHit? || DemoEnd? }
  }

  type Pending = map<Handle, Timer<Task>>

  ghost function Elems(s: seq<Handle>): set<Handle> {
    set h | h in s
  }

  // ----- The repeat engine -----

  ghost predicate IsHeldIn(held: map<PadId, bool>, pad: PadId) {
    pad in held && held[pad]
  }

  /** `h` is a live interval that repeats `pad` at its rate. */
  ghost predicate RepeatsAt(m: Pending, pad: PadId, h: Handle) {
    h in m && m[h].task == RepeatTick(pad) && m[h].period == Some(RateOf(pad))
  }

  /** A pad is held exactly when it has a registered interval; each registered interval
      is live and repeats its own pad; every live repeat is the registered one of its pad. */
  ghost predicate RepeatInv(held: map<PadId, bool>, intervals: map<PadId, Handle>, m: Pending) {
    && (forall pad :: IsHeldIn(held, pad) <==> pad in intervals)
    && (forall pad | pad in intervals :: RepeatsAt(m, pad, intervals[pad]))
    && (forall h | h in m && m[h].task.RepeatTick? ::
          m[h].task.pad in intervals && intervals[m[h].task.pad] == h)
  }

  /** At most one live interval per pad. */
  lemma OneIntervalPerPad(held: map<PadId, bool>, intervals: map<PadId, Handle>, m: Pending,
                          pad: PadId, h1: Handle, h2: Handle)
    requires RepeatInv(held, intervals, m)
    requires h1 in m && m[h1].task == RepeatTick(pad)
    requires h2 in m && m[h2].task == RepeatTick(pad)
    ensures h1 == h2
  {
  }

  /** Registering a timer that is not a repeat, at a fresh handle. */
  lemma RepeatInvAddOther(held: map<PadId, bool>, intervals: map<PadId, Handle>, m: Pending,
                          h: Handle, t: Timer<Task>)
    requires RepeatInv(held, intervals, m) && h !in m && !t.task.RepeatTick?
    ensures RepeatInv(held, intervals, m[h := t])
  {
  }

  /** Cancelling timers none of which is a live repeat. */
  lemma RepeatInvRemoveOthers(held: map<PadId, bool>, intervals: map<PadId, Handle>, m: Pending,
                              s: set<Handle>)
    requires RepeatInv(held, intervals, m)
    requires forall h | h in s && h in m :: !m[h].task.RepeatTick?
    ensures RepeatInv(held, intervals, m - s)
  {
  }

  /** Adding timers none of which is a repeat, at fresh handles. */
  lemma RepeatInvAddOthers(held: map<PadId, bool>, intervals: map<PadId, Handle>, m: Pending,
                           extra: Pending)
    requires RepeatInv(held, intervals, m)
    requires m.Keys !! extra.Keys
    requires forall h | h in extra :: !extra[h].task.RepeatTick?
    ensures RepeatInv(held, intervals, m + extra)
  {
    var r := m + extra;
    forall h | h in r && r[h].task.RepeatTick?
      ensures r[h].task.pad in intervals && intervals[r[h].task.pad] == h
    {
      assert h !in extra;
    }
  }

  /** Whatever timer fires, the repeat invariant survives: a repeat is re-armed in place. */
  lemma RepeatInvFire(held: map<PadId, bool>, intervals: map<PadId, Handle>, m: Pending, h: Handle)
    requires RepeatInv(held, intervals, m) && h in m
    ensures RepeatInv(held, intervals, AfterFiring(m, h))
  {
    var r := AfterFiring(m, h);
    forall pad | pad in intervals ensures RepeatsAt(r, pad, intervals[pad]) {
      assert RepeatsAt(m, pad, intervals[pad]);
    }
  }

  /** The pending timers once the interval registered for `pad`, if any, is cancelled. */
  ghost function Cancelled(m: Pending, intervals: map<PadId, Handle>, pad: PadId): Pending {
    if pad in intervals then m - {intervals[pad]} else m
  }

  /** Releasing a pad: it is no longer held and no live repeat for it remains; the
      cancelled timer was that repeat, so no demo timer goes with it. */
  lemma RepeatInvRelease(held: map<PadId, bool>, intervals: map<PadId, Handle>, m: Pending, pad: PadId)
    requires RepeatInv(held, intervals, m)
    ensures RepeatInv(held[pad := false], intervals - {pad}, Cancelled(m, intervals, pad))
    ensures forall h | h in Cancelled(m, intervals, pad) :: Cancelled(m, intervals, pad)[h].task != RepeatTick(pad)
    ensures pad in intervals ==> intervals[pad] in m && m[intervals[pad]].task == RepeatTick(pad)
  {
    var r := Cancelled(m, intervals, pad);
    forall p | p in intervals - {pad} ensures RepeatsAt(r, p, intervals[p]) {
      assert RepeatsAt(m, p, intervals[p]);
    }
    if pad in intervals {
      assert RepeatsAt(m, pad, intervals[pad]);
    }
  }

  /** Arming a new interval for a pad once its old one is released: the pad is held again
      and the new interval is its registered one. */
  lemma RepeatInvRearm(held: map<PadId, bool>, intervals: map<PadId, Handle>, m: Pending,
                       pad: PadId, h: Handle, due: int)
    requires RepeatInv(held[pad := false], intervals - {pad}, m) && h !in m
    ensures RepeatInv(held[pad := true], intervals[pad := h],
                      m[h := Timer(due, Some(RateOf(pad)), RepeatTick(pad))])
  {
    var r := m[h := Timer(due, Some(RateOf(pad)), RepeatTick(pad))];
    forall p | p in intervals && p != pad ensures RepeatsAt(r, p, intervals[p]) {
      assert RepeatsAt(m, p, (intervals - {pad})[p]);
    }
    var held0, held1, intervals1 := held[pad := false], held[pad := true], intervals[pad := h];
    forall p ensures IsHeldIn(held1, p) <==> p in intervals1 {
      assert p != pad ==> (IsHeldIn(held0, p) <==> p in intervals - {pad});
    }
  }

  // ----- The demo player -----

  ghost function Last(s: seq<Handle>): Handle
    requires |s| > 0
  {
    s[|s| - 1]
  }

  /** A live demo timer belongs to the running demo: it is tracked, it is a timeout,
      a hit is due strictly before the end, and the end is the last handle tracked. */
  ghost predicate DemoTimerOk(playing: bool, tracked: seq<Handle>, m: Pending, h: Handle)
    requires h in m
  {
    && playing && |tracked| > 0 && h in tracked && Last(tracked) in m
    && m[h].period.None?
    && (m[h].task.DemoHit? ==> m[h].task.time < DemoLength && m[h].due < m[Last(tracked)].due)
    && (m[h].task.DemoEnd? ==> h == Last(tracked))
  }

  /** While the demo plays, its end is pending and the progress is below 100; when it
      does not play, the progress is 0 or 100 and no demo timer is pending. Tracked
      handles were handed out and, while live, carry demo tasks. */
  ghost predicate DemoInv(playing: bool, progress: nat, tracked: seq<Handle>, m: Pending, next: Handle) {
    && (playing ==> progress < 100 && |tracked| > 0 && Last(tracked) in m && m[Last(tracked)].task == DemoEnd)
    && (!playing ==> progress == 0 || progress == 100)
    && (forall h | h in tracked :: 1 <= h < next)
    && (forall h | h in tracked && h in m :: m[h].task.IsDemo())
    && (forall h | h in m && m[h].task.IsDemo() :: DemoTimerOk(playing, tracked, m, h))
  }

  /** Registering a timer that is not a demo timer, at the next handle. */
  lemma DemoInvAddOther(playing: bool, progress: nat, tracked: seq<Handle>, m: Pending, next: Handle,
                        t: Timer<Task>)
    requires DemoInv(playing, progress, tracked, m, next) && next !in m && !t.task.IsDemo()
    ensures DemoInv(playing, progress, tracked, m[next := t], next + 1)
  {
    var r := m[next := t];
    forall h | h in r && r[h].task.IsDemo() ensures DemoTimerOk(playing, tracked, r, h) {
      assert DemoTimerOk(playing, tracked, m, h);
    }
  }

  /** Cancelling timers none of which is a demo timer. */
  lemma DemoInvRemoveOthers(playing: bool, progress: nat, tracked: seq<Handle>, m: Pending, next: Handle,
                            s: set<Handle>)
    requires DemoInv(playing, progress, tracked, m, next)
    requires forall h | h in s && h in m :: !m[h].task.IsDemo()
    ensures DemoInv(playing, progress, tracked, m - s, next)
  {
    var r := m - s;
    forall h | h in r && r[h].task.IsDemo() ensures DemoTimerOk(playing, tracked, r, h) {
      assert DemoTimerOk(playing, tracked, m, h);
    }
  }

  /** A timer that is not a demo timer fires. */
  lemma DemoInvFireOther(playing: bool, progress: nat, tracked: seq<Handle>, m: Pending, next: Handle,
                         h: Handle)
    requires DemoInv(playing, progress, tracked, m, next) && h in m && !m[h].task.IsDemo()
    ensures DemoInv(playing, progress, tracked, AfterFiring(m, h), next)
  {
    var r := AfterFiring(m, h);
    forall k | k in r && r[k].task.IsDemo() ensures DemoTimerOk(playing, tracked, r, k) {
      assert DemoTimerOk(playing, tracked, m, k);
    }
  }

  /** A hit fires only while the demo plays and only from a tracked handle; once it is
      gone the invariant still holds. */
  lemma DemoInvFireHit(playing: bool, progress: nat, tracked: seq<Handle>, m: Pending, next: Handle,
                       h: Handle)
    requires DemoInv(playing, progress, tracked, m, next) && h in m && m[h].task.DemoHit?
    ensures playing && h in tracked && m[h].task.time < DemoLength
    ensures DemoInv(playing, progress, tracked, AfterFiring(m, h), next)
  {
    assert DemoTimerOk(playing, tracked, m, h);
    var r := AfterFiring(m, h);
    assert r == m - {h};
    forall k | k in r && r[k].task.IsDemo() ensures DemoTimerOk(playing, tracked, r, k) {
      assert DemoTimerOk(playing, tracked, m, k);
    }
  }

  /** The progress may be set to any value below 100 while playing, and to 0 or 100 when idle. */
  lemma DemoInvProgress(playing: bool, progress: nat, tracked: seq<Handle>, m: Pending, next: Handle,
                        newProgress: nat)
    requires DemoInv(playing, progress, tracked, m, next)
    requires playing ==> newProgress < 100
    requires !playing ==> newProgress == 0 || newProgress == 100
    ensures DemoInv(playing, newProgress, tracked, m, next)
  {
  }

  /** When the end fires it is the last demo timer: every hit, due earlier, has fired.
      Afterwards nothing of the demo is pending and the progress reads 100. */
  lemma DemoInvFireEnd(playing: bool, progress: nat, tracked: seq<Handle>, m: Pending, next: Handle,
                       h: Handle)
    requires DemoInv(playing, progress, tracked, m, next) && IsEarliest(m, h) && m[h].task == DemoEnd
    ensures playing
    ensures DemoInv(false, 100, tracked, AfterFiring(m, h), next)
    ensures forall k | k in AfterFiring(m, h) :: !AfterFiring(m, h)[k].task.IsDemo()
  {
    assert DemoTimerOk(playing, tracked, m, h);
    var r := AfterFiring(m, h);
    assert r == m - {h};
    forall k | k in r ensures !r[k].task.IsDemo() {
      assert k in m && FiresBefore(m, h, k);
      assert r[k].task.IsDemo() ==> DemoTimerOk(playing, tracked, m, k);
    }
  }

  /** When the demo is not playing, no tracked handle is live and no demo timer is pending. */
  lemma IdleDemoIsRetired(progress: nat, tracked: seq<Handle>, m: Pending, next: Handle)
    requires DemoInv(false, progress, tracked, m, next)
    ensures forall h | h in tracked :: h !in m
    ensures forall h | h in m :: !m[h].task.IsDemo()
  {
    forall h | h in tracked ensures h !in m {
      assert h in m ==> m[h].task.IsDemo() && !DemoTimerOk(false, tracked, m, h);
    }
  }

  /** Stopping: cancelling every tracked handle leaves no demo timer and no repeat less. */
  lemma DemoInvStop(playing: bool, progress: nat, tracked: seq<Handle>, m: Pending, next: Handle)
    requires DemoInv(playing, progress, tracked, m, next)
    ensures DemoInv(false, 0, [], m - Elems(tracked), next)
    ensures forall h | h in m - Elems(tracked) :: !(m - Elems(tracked))[h].task.IsDemo()
    ensures forall h | h in Elems(tracked) && h in m :: m[h].task.IsDemo()
  {
    var r := m - Elems(tracked);
    forall h | h in r ensures !r[h].task.IsDemo() {
      assert r[h].task.IsDemo() ==> DemoTimerOk(playing, tracked, m, h);
    }
  }

  /** Unmounting cancels every registered interval and every tracked demo timeout: what
      is left can only be pulse clears and the progress reset. */
  lemma UnmountLeavesPulses(held: map<PadId, bool>, intervals: map<PadId, Handle>, playing: bool,
                            progress: nat, tracked: seq<Handle>, m: Pending, next: Handle)
    requires RepeatInv(held, intervals, m) && DemoInv(playing, progress, tracked, m, next)
    ensures
      var r := m - intervals.Values - Elems(tracked);
      forall h | h in r :: r[h].task == ClearActive || r[h].task == ProgressReset
  {
    var r := m - intervals.Values - Elems(tracked);
    forall h | h in r ensures r[h].task == ClearActive || r[h].task == ProgressReset {
      assert h in m && h !in intervals.Values && h !in tracked;
      assert !r[h].task.RepeatTick?;
      assert !r[h].task.IsDemo();
    }
  }

  // ----- What a demo run arms -----

  /** The timeout that plays `hit` in a run started at `now`. */
  function HitTimer(hit: Hit, now: int): Timer<Task> {
    Timer(now + hit.time, None, DemoHit(hit.time, hit.pad))
  }

  /** The first `n` hit timeouts of a run over `hits` whose first handle is `base`, started at `now`. */
  ghost function HitTimers(hits: seq<Hit>, base: Handle, now: int, n: nat): Pending
    requires n <= |hits|
  {
    if n == 0 then map[] else HitTimers(hits, base, now, n - 1)[base + n - 1 := HitTimer(hits[n - 1], now)]
  }

  /** Everything a run arms: one timeout per hit at its offset, then the end timeout. */
  ghost function RunTimers(hits: seq<Hit>, base: Handle, now: int): Pending {
    HitTimers(hits, base, now, |hits|)[base + |hits| := Timer(now + DemoLength, None, DemoEnd)]
  }

  /** `hs` lists the handles `base`, `base + 1`, ... in order, as consecutive pushes do. */
  ghost predicate Consecutive(hs: seq<Handle>, base: Handle) {
    forall k | 0 <= k < |hs| :: hs[k] == base + k
  }

  /** The first `n` hit timeouts sit at handles `base` .. `base + n - 1`, the one at
      `base + i` playing the i-th hit. */
  lemma {:induction false} HitTimersAt(hits: seq<Hit>, base: Handle, now: int, n: nat)
    requires n <= |hits|
    ensures forall h :: h in HitTimers(hits, base, now, n) <==> base <= h < base + n
    ensures forall h | h in HitTimers(hits, base, now, n) ::
      HitTimers(hits, base, now, n)[h] == HitTimer(hits[h - base], now)
  {
    if n > 0 {
      HitTimersAt(hits, base, now, n - 1);
    }
  }

  /** Registering one more timer on top of a union registers it in the added part. */
  lemma UpdateUnion(m: Pending, extra: Pending, h: Handle, t: Timer<Task>)
    ensures (m + extra)[h := t] == m + extra[h := t]
  {
  }

  /** Every timer of a run is a demo timeout at a run handle; a hit is due before the end. */
  lemma RunTimersAt(hits: seq<Hit>, base: Handle, now: int)
    requires WithinTimes(hits, 0, DemoLength)
    ensures forall h | h in RunTimers(hits, base, now) ::
      var t := RunTimers(hits, base, now)[h];
      && base <= h <= base + |hits|
      && t.period.None? && t.task.IsDemo()
      && (t.task.DemoHit? ==> t.task.time < DemoLength && t.due < now + DemoLength)
      && (t.task.DemoEnd? ==> h == base + |hits|)
  {
    HitTimersAt(hits, base, now, |hits|);
    var d := RunTimers(hits, base, now);
    forall h | h in d && h != base + |hits|
      ensures d[h] == HitTimer(hits[h - base], now) && hits[h - base].time < DemoLength
    {
    }
  }

  /** Starting a run from idle: the armed timers satisfy the demo invariant for the run. */
  lemma DemoInvPlay(progress: nat, tracked: seq<Handle>, m: Pending, hits: seq<Hit>, base: Handle, now: int,
                    hs: seq<Handle>)
    requires DemoInv(false, progress, tracked, m, base)
    requires WithinTimes(hits, 0, DemoLength)
    requires 1 <= base
    requires forall h | h in m :: h < base
    requires |hs| == |hits| + 1 && Consecutive(hs, base)
    ensures DemoInv(true, 0, hs, m + RunTimers(hits, base, now), base + |hits| + 1)
  {
    IdleDemoIsRetired(progress, tracked, m, base);
    RunTimersAt(hits, base, now);
    var d := RunTimers(hits, base, now);
    var r := m + d;
    var e := base + |hits|;
    assert Last(hs) == e && r[e] == Timer(now + DemoLength, None, DemoEnd);
    forall h | h in hs ensures base <= h < base + |hits| + 1 {
      var k :| 0 <= k < |hs| && hs[k] == h;
    }
    forall h | h in hs && h in r ensures r[h].task.IsDemo() {
      assert h !in m;
    }
    forall h | h in r && r[h].task.IsDemo() ensures DemoTimerOk(true, hs, r, h) {
      assert h in d && r[h] == d[h];
      assert hs[h - base] == h;
    }
  }

  /** Arming a run adds no repeat. */
  lemma RepeatInvPlay(held: map<PadId, bool>, intervals: map<PadId, Handle>, m: Pending,
                      hits: seq<Hit>, base: Handle, now: int)
    requires RepeatInv(held, intervals, m)
    requires WithinTimes(hits, 0, DemoLength)
    requires forall h | h in m :: h < base
    ensures RepeatInv(held, intervals, m + RunTimers(hits, base, now))
  {
    RunTimersAt(hits, base, now);
    RepeatInvAddOthers(held, intervals, m, RunTimers(hits, base, now));
  }

  /** Both invariants after a run is armed from idle, for the state the player builds. */
  lemma PlayKeepsInvariants(held: map<PadId, bool>, intervals: map<PadId, Handle>, progress: nat,
                            tracked: seq<Handle>, m: Pending, hits: seq<Hit>, base: Handle, now: int,
                            r: Pending, hs: seq<Handle>)
    requires RepeatInv(held, intervals, m) && DemoInv(false, progress, tracked, m, base)
    requires WithinTimes(hits, 0, DemoLength)
    requires 1 <= base && forall h | h in m :: h < base
    requires r == m + RunTimers(hits, base, now)
    requires |hs| == |hits| + 1 && Consecutive(hs, base)
    ensures RepeatInv(held, intervals, r)
    ensures DemoInv(true, 0, hs, r, base + |hits| + 1)
  {
    DemoInvPlay(progress, tracked, m, hits, base, now, hs);
    RepeatInvPlay(held, intervals, m, hits, base, now);
  }
}
