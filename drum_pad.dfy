/**
 * The drum pad component (src/components/DrumPad.tsx) as a state machine: the
 * trigger dispatcher with its short "active" pulse, the repeat engine for held
 * pads, the demo player, and the key, mouse and button wiring. Timer callbacks
 * are `Task`s run by the scheduler of module Timers; `Step` is one turn of the
 * event loop. The instruments are the set of pads whose synth finished loading.
 */
module DrumPad {
  import opened Wrappers
  import opened Timers
  import opened DrumData
  import opened DrumSchedule

  /** One sound-engine trigger; the articulation it plays is opaque here. */
  datatype Sound = Sound(pad: PadId, fromDemo: bool)

  /** The mouse events a pad button listens to. */
  datatype MouseEvent = MouseDown | MouseUp | MouseLeave | Click

  /** How long a trigger keeps its pad highlighted: longer during the demo. */
  function PulseLength(isDemoMode: bool): nat {
    if isDemoMode then 150 else 100
  }

  class DrumPadState {
    /** The pads whose instrument finished loading. */
    const instruments: set<PadId>
    const sched: Scheduler<Task>
    /** The demo's hit list (the `sequence` of `playDemoSequence`). */
    const demo: seq<Hit>
    var activePad: Option<PadId>
    var heldPads: map<PadId, bool>
    var repeatIntervals: map<PadId, Handle>
    var isPlayingDemo: bool
    var demoProgress: nat
    var demoTimeouts: seq<Handle>
    /** Every sound the instruments were asked to play, oldest first. */
    var sounds: seq<Sound>

    ghost predicate Valid()
      reads this, sched
    {
      && sched.Valid()
      && WithinTimes(demo, 0, DemoLength)
      && RepeatInv(heldPads, repeatIntervals, sched.timers)
      && DemoInv(isPlayingDemo, demoProgress, demoTimeouts, sched.timers, sched.next)
      && (activePad.Some? ==> activePad.value in instruments)
    }

    /** A pad button is highlighted while it is the active pad or while it is held. */
    predicate IsLit(pad: PadId)
      reads this
    {
      activePad == Some(pad) || (pad in heldPads && heldPads[pad])
    }

    /** Under the invariants a pad is lit exactly when it is the active pad or a pad
        that has a live repeat: holding and repeating light the same pads. */
    lemma LitPads(pad: PadId)
      requires Valid()
      ensures IsLit(pad) <==> activePad == Some(pad) || pad in repeatIntervals
      ensures pad in repeatIntervals ==> RepeatsAt(sched.timers, pad, repeatIntervals[pad])
    {
      assert IsHeldIn(heldPads, pad) <==> pad in repeatIntervals;
    }

    // ----- What one trigger does -----

    ghost function Dispatched(s: seq<Sound>, pad: PadId, isDemoMode: bool): seq<Sound> {
      if pad in instruments then s + [Sound(pad, isDemoMode)] else s
    }

    ghost function Pulsed(a: Option<PadId>, pad: PadId): Option<PadId> {
      if pad in instruments then Some(pad) else a
    }

    ghost function PulseTimers(m: Pending, b: Handle, now: int, pad: PadId, isDemoMode: bool): Pending {
      if pad in instruments then m[b := Timer(now + PulseLength(isDemoMode), None, ClearActive)] else m
    }

    ghost function PulseNext(b: Handle, pad: PadId): Handle {
      if pad in instruments then b + 1 else b
    }

    /** The pending timers after a hold start: the old interval cancelled, the pulse armed
        at `b` if the pad triggers, the new interval at the handle after it. */
    ghost function HoldTimers(m: Pending, intervals: map<PadId, Handle>, b: Handle, now: int, pad: PadId): Pending {
      PulseTimers(Cancelled(m, intervals, pad), b, now, pad, false)
        [PulseNext(b, pad) := Timer(now + RateOf(pad), Some(RateOf(pad)), RepeatTick(pad))]
    }

    /** The pulse of a trigger keeps both invariants. */
    lemma PulseKeepsInvariants(held: map<PadId, bool>, intervals: map<PadId, Handle>, playing: bool,
                               progress: nat, tracked: seq<Handle>, m: Pending, b: Handle, now: int,
                               pad: PadId, isDemoMode: bool)
      requires RepeatInv(held, intervals, m) && DemoInv(playing, progress, tracked, m, b) && b !in m
      ensures RepeatInv(held, intervals, PulseTimers(m, b, now, pad, isDemoMode))
      ensures DemoInv(playing, progress, tracked, PulseTimers(m, b, now, pad, isDemoMode), PulseNext(b, pad))
    {
      if pad in instruments {
        var t := Timer(now + PulseLength(isDemoMode), None, ClearActive);
        RepeatInvAddOther(held, intervals, m, b, t);
        DemoInvAddOther(playing, progress, tracked, m, b, t);
      }
    }

    /** The first half of a hold start: the old interval is cancelled and the pulse, which
        is not a repeat, is armed. */
    lemma ReleaseThenPulse(held: map<PadId, bool>, intervals: map<PadId, Handle>, m: Pending,
                           b: Handle, now: int, pad: PadId)
      requires RepeatInv(held, intervals, m)
      requires forall k | k in m :: k < b
      ensures RepeatInv(held[pad := false], intervals - {pad}, PulseTimers(Cancelled(m, intervals, pad), b, now, pad, false))
      ensures PulseNext(b, pad) !in PulseTimers(Cancelled(m, intervals, pad), b, now, pad, false)
    {
      RepeatInvRelease(held, intervals, m, pad);
      var m1 := Cancelled(m, intervals, pad);
      if pad in instruments {
        RepeatInvAddOther(held[pad := false], intervals - {pad}, m1, b, Timer(now + PulseLength(false), None, ClearActive));
      }
    }

    /** A hold start keeps the repeat invariant: the old interval is cancelled, the pulse
        is not a repeat and the new interval becomes the pad's registered one. */
    lemma HoldKeepsRepeatInv(held: map<PadId, bool>, intervals: map<PadId, Handle>, m: Pending,
                             b: Handle, now: int, pad: PadId, h: Handle, r: Pending)
      requires RepeatInv(held, intervals, m)
      requires forall k | k in m :: k < b
      requires h == PulseNext(b, pad)
      requires r == HoldTimers(m, intervals, b, now, pad)
      ensures RepeatInv(held[pad := true], intervals[pad := h], r)
    {
      ReleaseThenPulse(held, intervals, m, b, now, pad);
      var m2 := PulseTimers(Cancelled(m, intervals, pad), b, now, pad, false);
      RepeatInvRearm(held, intervals, m2, pad, h, now + RateOf(pad));
    }

    /** A hold start keeps the demo invariant: it cancels a repeat and adds two timers
        that are not demo timers at fresh handles. */
    lemma HoldKeepsDemoInv(intervals: map<PadId, Handle>, playing: bool, progress: nat, tracked: seq<Handle>,
                           m: Pending, b: Handle, now: int, pad: PadId, h: Handle, r: Pending)
      requires DemoInv(playing, progress, tracked, m, b)
      requires forall k | k in m :: k < b
      requires pad in intervals ==> intervals[pad] in m && m[intervals[pad]].task.RepeatTick?
      requires h == PulseNext(b, pad)
      requires r == HoldTimers(m, intervals, b, now, pad)
      ensures DemoInv(playing, progress, tracked, r, h + 1)
    {
      var m1 := Cancelled(m, intervals, pad);
      if pad in intervals {
        DemoInvRemoveOthers(playing, progress, tracked, m, b, {intervals[pad]});
      }
      var m2 := PulseTimers(m1, b, now, pad, false);
      if pad in instruments {
        DemoInvAddOther(playing, progress, tracked, m1, b, Timer(now + PulseLength(false), None, ClearActive));
      }
      DemoInvAddOther(playing, progress, tracked, m2, h, Timer(now + RateOf(pad), Some(RateOf(pad)), RepeatTick(pad)));
    }

    constructor (instruments: set<PadId>)
      ensures Valid() && fresh(sched)
      ensures this.instruments == instruments && demo == Demo()
      ensures activePad == None && heldPads == map[] && repeatIntervals == map[]
      ensures !isPlayingDemo && demoProgress == 0 && demoTimeouts == [] && sounds == []
      ensures sched.now == 0 && sched.timers == map[] && sched.next == 1
    {
      this.instruments := instruments;
      sched := new Scheduler();
      demo := Demo();
      DemoWellFormed();
      activePad := None;
      heldPads := map[];
      repeatIntervals := map[];
      isPlayingDemo := false;
      demoProgress := 0;
      demoTimeouts := [];
      sounds := [];
    }

    /** `handlePadTrigger`: a pad without an instrument is dropped; otherwise the sound
        plays, the pad becomes the active one and a clear of the active slot is armed
        150 ms (demo) or 100 ms (direct) later. The clear is never cancelled. */
    method HandlePadTrigger(pad: PadId, isDemoMode: bool)
      requires sched.Valid()
      modifies this`sounds, this`activePad, sched
      ensures sched.Valid()
      ensures forall k | old(sched.Retired(k)) :: sched.Retired(k)
      ensures sounds == Dispatched(old(sounds), pad, isDemoMode)
      ensures activePad == Pulsed(old(activePad), pad)
      ensures sched.timers == PulseTimers(old(sched.timers), old(sched.next), sched.now, pad, isDemoMode)
      ensures sched.next == PulseNext(old(sched.next), pad)
      ensures sched.now == old(sched.now)
      ensures heldPads == old(heldPads) && repeatIntervals == old(repeatIntervals)
      ensures isPlayingDemo == old(isPlayingDemo) && demoProgress == old(demoProgress)
      ensures demoTimeouts == old(demoTimeouts)
    {
      if pad in instruments {
        sounds := sounds + [Sound(pad, isDemoMode)];
        activePad := Some(pad);
        var clear := sched.SetTimeout(PulseLength(isDemoMode), ClearActive);
      }
    }

    /** `handlePadHold`: starting a hold is `StartHold`, ending it is `EndHold`. */
    method HandlePadHold(pad: PadId, isHolding: bool)
      requires Valid()
      modifies this, sched
      ensures Valid()
      ensures sched.now == old(sched.now)
      ensures isPlayingDemo == old(isPlayingDemo) && demoProgress == old(demoProgress)
      ensures demoTimeouts == old(demoTimeouts)
      ensures heldPads == old(heldPads)[pad := isHolding]
      ensures isHolding ==>
        var h := PulseNext(old(sched.next), pad);
        && sounds == Dispatched(old(sounds), pad, false)
        && activePad == Pulsed(old(activePad), pad)
        && repeatIntervals == old(repeatIntervals)[pad := h]
        && sched.timers == HoldTimers(old(sched.timers), old(repeatIntervals), old(sched.next), sched.now, pad)
        && sched.next == h + 1
        && RepeatsAt(sched.timers, pad, repeatIntervals[pad])
        && IsLit(pad)
      ensures !isHolding ==>
        && sounds == old(sounds) && activePad == old(activePad)
        && repeatIntervals == old(repeatIntervals) - {pad}
        && sched.timers == Cancelled(old(sched.timers), old(repeatIntervals), pad)
        && sched.next == old(sched.next)
        && (pad in old(repeatIntervals) ==> sched.Retired(old(repeatIntervals)[pad]))
        && (forall h | h in sched.timers :: sched.timers[h].task != RepeatTick(pad))
    {
      if isHolding {
        StartHold(pad);
      } else {
        EndHold(pad);
      }
    }

    /** Starting a hold (src/components/DrumPad.tsx:400-416): the pad is marked held, its
        interval is cancelled if it has one, the pad triggers once and a new interval
        repeats it at its rate. A second start therefore triggers again and replaces
        the interval rather than adding one. */
    method StartHold(pad: PadId)
      requires Valid()
      modifies this, sched
      ensures Valid()
      ensures sched.now == old(sched.now)
      ensures isPlayingDemo == old(isPlayingDemo) && demoProgress == old(demoProgress)
      ensures demoTimeouts == old(demoTimeouts)
      ensures
        var h := PulseNext(old(sched.next), pad);
        && heldPads == old(heldPads)[pad := true]
        && sounds == Dispatched(old(sounds), pad, false)
        && activePad == Pulsed(old(activePad), pad)
        && repeatIntervals == old(repeatIntervals)[pad := h]
        && sched.timers == HoldTimers(old(sched.timers), old(repeatIntervals), old(sched.next), sched.now, pad)
        && sched.next == h + 1
      ensures RepeatsAt(sched.timers, pad, repeatIntervals[pad]) && IsLit(pad)
    {
      ghost var m0, iv0, b0, held0 := sched.timers, repeatIntervals, sched.next, heldPads;
      ghost var playing0, progress0, tracked0 := isPlayingDemo, demoProgress, demoTimeouts;
      assert pad in iv0 ==> RepeatsAt(m0, pad, iv0[pad]);
      var h := RestartRepeat(pad);
      HoldKeepsRepeatInv(held0, iv0, m0, b0, sched.now, pad, h, sched.timers);
      HoldKeepsDemoInv(iv0, playing0, progress0, tracked0, m0, b0, sched.now, pad, h, sched.timers);
    }

    /** The steps of a hold start, in the order the handler takes them: mark the pad held,
        cancel its interval, trigger it, arm and register a new interval. */
    method RestartRepeat(pad: PadId) returns (h: Handle)
      requires sched.Valid()
      modifies this, sched
      ensures sched.Valid()
      ensures sched.now == old(sched.now)
      ensures isPlayingDemo == old(isPlayingDemo) && demoProgress == old(demoProgress)
      ensures demoTimeouts == old(demoTimeouts)
      ensures h == PulseNext(old(sched.next), pad)
      ensures heldPads == old(heldPads)[pad := true]
      ensures sounds == Dispatched(old(sounds), pad, false)
      ensures activePad == Pulsed(old(activePad), pad)
      ensures repeatIntervals == old(repeatIntervals)[pad := h]
      ensures sched.timers == HoldTimers(old(sched.timers), old(repeatIntervals), old(sched.next), sched.now, pad)
      ensures sched.next == h + 1
    {
      heldPads := heldPads[pad := true];
      ClearInterval(pad);
      HandlePadTrigger(pad, false);
      h := ArmInterval(pad);
    }

    /** Arms an interval that repeats `pad` at its rate and registers it. */
    method ArmInterval(pad: PadId) returns (h: Handle)
      requires sched.Valid()
      modifies this`repeatIntervals, sched
      ensures sched.Valid()
      ensures h == old(sched.next) && sched.next == h + 1 && sched.now == old(sched.now)
      ensures sched.timers == old(sched.timers)[h := Timer(sched.now + RateOf(pad), Some(RateOf(pad)), RepeatTick(pad))]
      ensures repeatIntervals == old(repeatIntervals)[pad := h]
    {
      var rate := RateOf(pad);
      h := sched.SetInterval(rate, RepeatTick(pad));
      repeatIntervals := repeatIntervals[pad := h];
    }

    /** Cancels the interval registered for `pad`, if there is one; the registration stays. */
    method ClearInterval(pad: PadId)
      requires sched.Valid()
      modifies sched
      ensures sched.Valid()
      ensures sched.now == old(sched.now) && sched.next == old(sched.next)
      ensures sched.timers == Cancelled(old(sched.timers), repeatIntervals, pad)
      ensures pad in repeatIntervals && repeatIntervals[pad] in old(sched.timers) ==> sched.Retired(repeatIntervals[pad])
    {
      if pad in repeatIntervals {
        sched.Clear(repeatIntervals[pad]);
      }
    }

    /** Ending a hold (src/components/DrumPad.tsx:417-426): the pad is marked not held and
        its interval, if any, is cancelled and forgotten; nothing repeats it any more. */
    method EndHold(pad: PadId)
      requires Valid()
      modifies this, sched
      ensures Valid()
      ensures sched.now == old(sched.now) && sched.next == old(sched.next)
      ensures isPlayingDemo == old(isPlayingDemo) && demoProgress == old(demoProgress)
      ensures demoTimeouts == old(demoTimeouts)
      ensures heldPads == old(heldPads)[pad := false]
      ensures sounds == old(sounds) && activePad == old(activePad)
      ensures repeatIntervals == old(repeatIntervals) - {pad}
      ensures sched.timers == Cancelled(old(sched.timers), old(repeatIntervals), pad)
      ensures pad in old(repeatIntervals) ==> sched.Retired(old(repeatIntervals)[pad])
      ensures forall h | h in sched.timers :: sched.timers[h].task != RepeatTick(pad)
    {
      ghost var m0, iv0, held0 := sched.timers, repeatIntervals, heldPads;
      RepeatInvRelease(held0, iv0, m0, pad);
      if pad in iv0 {
        DemoInvRemoveOthers(isPlayingDemo, demoProgress, demoTimeouts, m0, sched.next, {iv0[pad]});
      }
      heldPads := heldPads[pad := false];
      ClearInterval(pad);
      repeatIntervals := repeatIntervals - {pad};
      assert iv0 - {pad} == repeatIntervals;
    }

    // ----- The event loop -----

    /** One turn of the event loop: the earliest pending timer fires and its callback runs.
        A repeat fires only for a held pad, from the interval registered for it; a demo
        timeout fires only while the demo plays, from a tracked handle. */
    method Step() returns (fired: Option<Fired<Task>>)
      requires Valid()
      modifies this, sched
      ensures Valid()
      ensures forall k | old(sched.Retired(k)) :: sched.Retired(k)
      ensures heldPads == old(heldPads) && repeatIntervals == old(repeatIntervals)
      ensures demoTimeouts == old(demoTimeouts)
      ensures fired.None? <==> old(sched.timers) == map[]
      ensures fired.None? ==>
        unchanged(this) && sched.timers == old(sched.timers) && sched.now == old(sched.now) && sched.next == old(sched.next)
      ensures fired.Some? ==>
        && IsEarliest(old(sched.timers), fired.value.handle)
        && fired.value.task == old(sched.timers)[fired.value.handle].task
        && sched.now == old(sched.timers)[fired.value.handle].due
      ensures fired.Some? && fired.value.task.RepeatTick? ==>
        var h, pad := fired.value.handle, fired.value.task.pad;
        && IsHeldIn(old(heldPads), pad) && old(repeatIntervals)[pad] == h
        && sounds == Dispatched(old(sounds), pad, false) && activePad == Pulsed(old(activePad), pad)
        && isPlayingDemo == old(isPlayingDemo) && demoProgress == old(demoProgress)
        && sched.timers == PulseTimers(AfterFiring(old(sched.timers), h), old(sched.next), sched.now, pad, false)
        && sched.next == PulseNext(old(sched.next), pad)
      ensures fired.Some? && fired.value.task.DemoHit? ==>
        var h, pad := fired.value.handle, fired.value.task.pad;
        && old(isPlayingDemo) && isPlayingDemo && h in old(demoTimeouts)
        && sounds == Dispatched(old(sounds), pad, true) && activePad == Pulsed(old(activePad), pad)
        && demoProgress == ProgressAt(fired.value.task.time)
        && sched.timers == PulseTimers(AfterFiring(old(sched.timers), h), old(sched.next), sched.now, pad, true)
        && sched.next == PulseNext(old(sched.next), pad)
      ensures fired.Some? && fired.value.task.DemoEnd? ==>
        && old(isPlayingDemo) && !isPlayingDemo && demoProgress == 100
        && sounds == old(sounds) && activePad == old(activePad)
        && sched.timers == AfterFiring(old(sched.timers), fired.value.handle)
                             [old(sched.next) := Timer(sched.now + ProgressResetDelay, None, ProgressReset)]
        && sched.next == old(sched.next) + 1
        && (forall h | h in sched.timers :: !sched.timers[h].task.IsDemo())
      ensures fired.Some? && fired.value.task.ClearActive? ==>
        && activePad == None && sounds == old(sounds)
        && isPlayingDemo == old(isPlayingDemo) && demoProgress == old(demoProgress)
        && sched.timers == AfterFiring(old(sched.timers), fired.value.handle) && sched.next == old(sched.next)
      ensures fired.Some? && fired.value.task.ProgressReset? ==>
        && demoProgress == 0 && sounds == old(sounds) && activePad == old(activePad)
        && isPlayingDemo == old(isPlayingDemo)
        && sched.timers == AfterFiring(old(sched.timers), fired.value.handle) && sched.next == old(sched.next)
    {
      ghost var m0 := sched.timers;
      fired := sched.FireNext();
      if fired.None? {
        return;
      }
      var h, task := fired.value.handle, fired.value.task;
      assert FiredFrom(m0, h);
      match task
      case RepeatTick(pad) => RunRepeatTick(m0, h, pad);
      case ClearActive => RunClearActive(m0, h);
      case ProgressReset => RunProgressReset(m0, h);
      case DemoHit(time, pad) => RunDemoHit(m0, h, time, pad);
      case DemoEnd => RunDemoEnd(m0, h);
    }

    /** The state right after the timer `h`, the earliest of `m0`, has fired from a valid
        state and before its callback has run. */
    ghost predicate FiredFrom(m0: Pending, h: Handle)
      reads this, sched
    {
      && sched.Valid() && WithinTimes(demo, 0, DemoLength)
      && (activePad.Some? ==> activePad.value in instruments)
      && IsEarliest(m0, h) && sched.timers == AfterFiring(m0, h)
      && RepeatInv(heldPads, repeatIntervals, m0)
      && DemoInv(isPlayingDemo, demoProgress, demoTimeouts, m0, sched.next)
    }

    /** A repeat fires only for a held pad, from its registered interval, and triggers the pad. */
    method RunRepeatTick(ghost m0: Pending, ghost h: Handle, pad: PadId)
      requires FiredFrom(m0, h) && m0[h].task == RepeatTick(pad)
      modifies this`sounds, this`activePad, sched
      ensures Valid()
      ensures sched.now == old(sched.now)
      ensures sched.timers == PulseTimers(old(sched.timers), old(sched.next), sched.now, pad, false)
      ensures sched.next == PulseNext(old(sched.next), pad)
      ensures forall k | old(sched.Retired(k)) :: sched.Retired(k)
      ensures IsHeldIn(heldPads, pad) && pad in repeatIntervals && repeatIntervals[pad] == h
      ensures sounds == Dispatched(old(sounds), pad, false) && activePad == Pulsed(old(activePad), pad)
      ensures heldPads == old(heldPads) && repeatIntervals == old(repeatIntervals) && demoTimeouts == old(demoTimeouts)
      ensures isPlayingDemo == old(isPlayingDemo) && demoProgress == old(demoProgress)
    {
      RepeatInvFire(heldPads, repeatIntervals, m0, h);
      DemoInvFireOther(isPlayingDemo, demoProgress, demoTimeouts, m0, sched.next, h);
      PulseKeepsInvariants(heldPads, repeatIntervals, isPlayingDemo, demoProgress, demoTimeouts,
                           sched.timers, sched.next, sched.now, pad, false);
      HandlePadTrigger(pad, false);
    }

    /** A pulse ends: the active slot is cleared, whichever pad it holds. */
    method RunClearActive(ghost m0: Pending, ghost h: Handle)
      requires FiredFrom(m0, h) && m0[h].task == ClearActive
      modifies this`activePad
      ensures Valid()
      ensures heldPads == old(heldPads) && repeatIntervals == old(repeatIntervals) && demoTimeouts == old(demoTimeouts)
      ensures activePad == None
    {
      RepeatInvFire(heldPads, repeatIntervals, m0, h);
      DemoInvFireOther(isPlayingDemo, demoProgress, demoTimeouts, m0, sched.next, h);
      activePad := None;
    }

    /** One second after the end of the demo the progress bar returns to 0. */
    method RunProgressReset(ghost m0: Pending, ghost h: Handle)
      requires FiredFrom(m0, h) && m0[h].task == ProgressReset
      modifies this`demoProgress
      ensures Valid()
      ensures heldPads == old(heldPads) && repeatIntervals == old(repeatIntervals) && demoTimeouts == old(demoTimeouts)
      ensures demoProgress == 0
    {
      RepeatInvFire(heldPads, repeatIntervals, m0, h);
      DemoInvFireOther(isPlayingDemo, demoProgress, demoTimeouts, m0, sched.next, h);
      DemoInvProgress(isPlayingDemo, demoProgress, demoTimeouts, sched.timers, sched.next, 0);
      demoProgress := 0;
    }

    /** A hit of the demo fires only while it plays, from a tracked handle: the pad triggers
        in demo mode and the progress moves to the hit's share of the 15 s. */
    method RunDemoHit(ghost m0: Pending, ghost h: Handle, time: nat, pad: PadId)
      requires FiredFrom(m0, h) && m0[h].task == DemoHit(time, pad)
      modifies this`sounds, this`activePad, this`demoProgress, sched
      ensures Valid()
      ensures heldPads == old(heldPads) && repeatIntervals == old(repeatIntervals) && demoTimeouts == old(demoTimeouts)
      ensures sched.now == old(sched.now)
      ensures sched.timers == PulseTimers(old(sched.timers), old(sched.next), sched.now, pad, true)
      ensures sched.next == PulseNext(old(sched.next), pad)
      ensures forall k | old(sched.Retired(k)) :: sched.Retired(k)
      ensures old(isPlayingDemo) && isPlayingDemo && h in demoTimeouts && demoTimeouts == old(demoTimeouts)
      ensures sounds == Dispatched(old(sounds), pad, true) && activePad == Pulsed(old(activePad), pad)
      ensures demoProgress == ProgressAt(time)
    {
      RepeatInvFire(heldPads, repeatIntervals, m0, h);
      DemoInvFireHit(isPlayingDemo, demoProgress, demoTimeouts, m0, sched.next, h);
      PulseKeepsInvariants(heldPads, repeatIntervals, isPlayingDemo, demoProgress, demoTimeouts,
                           sched.timers, sched.next, sched.now, pad, true);
      HandlePadTrigger(pad, true);
      DemoInvProgress(isPlayingDemo, demoProgress, demoTimeouts, sched.timers, sched.next, ProgressAt(time));
      demoProgress := ProgressAt(time);
    }

    /** The end of the demo fires after every hit: the demo stops, the progress reads 100,
        nothing of the demo is pending any more and the progress reset is armed. */
    method RunDemoEnd(ghost m0: Pending, ghost h: Handle)
      requires FiredFrom(m0, h) && m0[h].task == DemoEnd
      modifies this`isPlayingDemo, this`demoProgress, sched
      ensures Valid()
      ensures heldPads == old(heldPads) && repeatIntervals == old(repeatIntervals) && demoTimeouts == old(demoTimeouts)
      ensures sched.now == old(sched.now) && sched.next == old(sched.next) + 1
      ensures forall k | old(sched.Retired(k)) :: sched.Retired(k)
      ensures old(isPlayingDemo) && !isPlayingDemo && demoProgress == 100
      ensures sched.timers == old(sched.timers)[old(sched.next) := Timer(sched.now + ProgressResetDelay, None, ProgressReset)]
      ensures forall k | k in sched.timers :: !sched.timers[k].task.IsDemo()
    {
      RepeatInvFire(heldPads, repeatIntervals, m0, h);
      DemoInvFireEnd(isPlayingDemo, demoProgress, demoTimeouts, m0, sched.next, h);
      isPlayingDemo := false;
      demoProgress := 100;
      ArmProgressReset();
    }

    /** The end of the demo schedules the progress bar's reset one second later; the
        handle is not tracked, so nothing can cancel it. */
    method ArmProgressReset()
      requires Valid()
      modifies sched
      ensures Valid()
      ensures sched.now == old(sched.now) && sched.next == old(sched.next) + 1
      ensures sched.timers == old(sched.timers)[old(sched.next) := Timer(sched.now + ProgressResetDelay, None, ProgressReset)]
      ensures forall k | old(sched.Retired(k)) :: sched.Retired(k)
    {
      ghost var m0, b0 := sched.timers, sched.next;
      var reset := sched.SetTimeout(ProgressResetDelay, ProgressReset);
      RepeatInvAddOther(heldPads, repeatIntervals, m0, b0, sched.timers[reset]);
      DemoInvAddOther(isPlayingDemo, demoProgress, demoTimeouts, m0, b0, sched.timers[reset]);
    }

    /** Time passes with no timer due in between: input events arrive between timers. */
    method Wait(t: int)
      requires Valid()
      requires sched.now <= t
      requires forall h | h in sched.timers :: t <= sched.timers[h].due
      modifies sched
      ensures Valid()
      ensures sched.now == t && sched.timers == old(sched.timers) && sched.next == old(sched.next)
    {
      sched.AdvanceTo(t);
    }

    // ----- The demo player -----

    /** Cancels every tracked demo timeout; the list itself is left to the caller. */
    method ClearDemoTimeouts()
      requires sched.Valid()
      modifies sched
      ensures sched.Valid()
      ensures sched.now == old(sched.now) && sched.next == old(sched.next)
      ensures sched.timers == old(sched.timers) - Elems(demoTimeouts)
    {
      var i := 0;
      while i < |demoTimeouts|
        invariant 0 <= i <= |demoTimeouts|
        invariant sched.Valid()
        invariant sched.now == old(sched.now) && sched.next == old(sched.next)
        invariant sched.timers == old(sched.timers) - Elems(demoTimeouts[..i])
      {
        sched.Clear(demoTimeouts[i]);
        assert Elems(demoTimeouts[..i + 1]) == Elems(demoTimeouts[..i]) + {demoTimeouts[i]} by {
          assert demoTimeouts[..i + 1] == demoTimeouts[..i] + [demoTimeouts[i]];
        }
        i := i + 1;
      }
      assert demoTimeouts[..i] == demoTimeouts;
    }

    /** `playDemoSequence` (src/components/DrumPad.tsx:430-657): ignored while the demo plays;
        otherwise the progress restarts at 0 and every hit of the demo is scheduled at its
        offset, followed by the end of the demo 15 s after the start, all tracked in order. */
    method PlayDemo()
      requires Valid()
      modifies this`demoTimeouts, this`isPlayingDemo, this`demoProgress, sched
      ensures Valid()
      ensures sched.now == old(sched.now)
      ensures old(isPlayingDemo) ==> unchanged(this) && unchanged(sched)
      ensures !old(isPlayingDemo) ==>
        && isPlayingDemo && demoProgress == 0
        && |demoTimeouts| == |demo| + 1 && Consecutive(demoTimeouts, old(sched.next))
        && sched.timers == old(sched.timers) + RunTimers(demo, old(sched.next), sched.now)
        && sched.next == old(sched.next) + |demo| + 1
    {
      if isPlayingDemo {
        return;
      }
      ghost var m0, b0, progress0, tracked0 := sched.timers, sched.next, demoProgress, demoTimeouts;
      ghost var held0, intervals0 := heldPads, repeatIntervals;
      IdleDemoIsRetired(demoProgress, demoTimeouts, m0, b0);
      assert m0 - Elems(tracked0) == m0;
      RestartRun();
      PlayKeepsInvariants(held0, intervals0, progress0, tracked0, m0, demo, b0, sched.now,
                          sched.timers, demoTimeouts);
    }

    /** The steps of a start, in the order the handler takes them: cancel and forget the
        tracked timeouts, mark the demo playing at progress 0, schedule the run. */
    method RestartRun()
      requires sched.Valid()
      modifies this`demoTimeouts, this`isPlayingDemo, this`demoProgress, sched
      ensures sched.Valid()
      ensures isPlayingDemo && demoProgress == 0
      ensures |demoTimeouts| == |demo| + 1 && Consecutive(demoTimeouts, old(sched.next))
      ensures sched.timers == old(sched.timers) - Elems(old(demoTimeouts)) + RunTimers(demo, old(sched.next), sched.now)
      ensures sched.now == old(sched.now) && sched.next == old(sched.next) + |demo| + 1
    {
      ClearDemoTimeouts();
      demoTimeouts := [];
      isPlayingDemo := true;
      demoProgress := 0;
      ScheduleRun(demo);
    }

    /** Schedules one timeout per hit at its offset and then the end of the run, pushing
        every handle onto the (empty) tracked list in order. */
    method ScheduleRun(hits: seq<Hit>)
      requires sched.Valid() && demoTimeouts == []
      modifies this`demoTimeouts, sched
      ensures sched.Valid()
      ensures sched.now == old(sched.now) && sched.next == old(sched.next) + |hits| + 1
      ensures sched.timers == old(sched.timers) + RunTimers(hits, old(sched.next), sched.now)
      ensures |demoTimeouts| == |hits| + 1 && Consecutive(demoTimeouts, old(sched.next))
    {
      ghost var m0, b0 := sched.timers, sched.next;
      var now := sched.now;
      var i := 0;
      while i < |hits|
        invariant 0 <= i <= |hits|
        invariant sched.Valid() && sched.now == now && sched.next == b0 + i
        invariant sched.timers == m0 + HitTimers(hits, b0, now, i)
        invariant |demoTimeouts| == i && Consecutive(demoTimeouts, b0)
      {
        var hit := hits[i];
        var timeout := sched.SetTimeout(hit.time, DemoHit(hit.time, hit.pad));
        UpdateUnion(m0, HitTimers(hits, b0, now, i), timeout, HitTimer(hit, now));
        demoTimeouts := demoTimeouts + [timeout];
        i := i + 1;
      }
      var endTimeout := sched.SetTimeout(DemoLength, DemoEnd);
      ghost var end := Timer(now + DemoLength, None, DemoEnd);
      UpdateUnion(m0, HitTimers(hits, b0, now, i), endTimeout, end);
      assert sched.timers == m0 + HitTimers(hits, b0, now, i)[endTimeout := end];
      assert HitTimers(hits, b0, now, i)[endTimeout := end] == RunTimers(hits, b0, now);
      demoTimeouts := demoTimeouts + [endTimeout];
    }

    /** `stopDemoSequence` (src/components/DrumPad.tsx:660-669): every tracked timeout is
        cancelled and forgotten, the demo stops and the progress returns to 0. A pending
        progress reset is not tracked and survives. */
    method StopDemo()
      requires Valid()
      modifies this, sched
      ensures Valid()
      ensures sched.now == old(sched.now) && sched.next == old(sched.next)
      ensures sched.timers == old(sched.timers) - Elems(old(demoTimeouts))
      ensures forall h | h in sched.timers :: !sched.timers[h].task.IsDemo()
      ensures !isPlayingDemo && demoProgress == 0 && demoTimeouts == []
      ensures activePad == old(activePad) && sounds == old(sounds)
      ensures heldPads == old(heldPads) && repeatIntervals == old(repeatIntervals)
    {
      DemoInvStop(isPlayingDemo, demoProgress, demoTimeouts, sched.timers, sched.next);
      RepeatInvRemoveOthers(heldPads, repeatIntervals, sched.timers, Elems(demoTimeouts));
      ClearDemoTimeouts();
      demoTimeouts := [];
      isPlayingDemo := false;
      demoProgress := 0;
    }

    /** The demo button (src/components/DrumPad.tsx:716-722) stops a playing demo and starts
        an idle one. */
    method ToggleDemo()
      requires Valid()
      modifies this, sched
      ensures Valid()
      ensures isPlayingDemo == !old(isPlayingDemo)
      ensures sched.now == old(sched.now)
      ensures activePad == old(activePad) && sounds == old(sounds)
      ensures heldPads == old(heldPads) && repeatIntervals == old(repeatIntervals)
      ensures isPlayingDemo ==>
        && demoProgress == 0
        && |demoTimeouts| == |demo| + 1 && Consecutive(demoTimeouts, old(sched.next))
        && sched.timers == old(sched.timers) + RunTimers(demo, old(sched.next), sched.now)
        && sched.next == old(sched.next) + |demo| + 1
      ensures !isPlayingDemo ==>
        && demoProgress == 0 && demoTimeouts == []
        && sched.timers == old(sched.timers) - Elems(old(demoTimeouts))
        && sched.next == old(sched.next)
        && forall h | h in sched.timers :: !sched.timers[h].task.IsDemo()
    {
      if isPlayingDemo {
        StopDemo();
      } else {
        PlayDemo();
      }
    }

    /** The effect clean-up on unmount (src/components/DrumPad.tsx:314-330): every
        registered interval and every tracked demo timeout is cancelled. Pending pulse
        clears and a pending progress reset are not tracked and remain. */
    method Unmount()
      requires Valid()
      modifies sched
      ensures sched.Valid()
      ensures sched.timers == old(sched.timers) - repeatIntervals.Values - Elems(demoTimeouts)
      ensures forall h | h in sched.timers ::
        sched.timers[h].task == ClearActive || sched.timers[h].task == ProgressReset
    {
      UnmountLeavesPulses(heldPads, repeatIntervals, isPlayingDemo, demoProgress, demoTimeouts,
                          sched.timers, sched.next);
      var pending := repeatIntervals.Values;
      while pending != {}
        invariant pending <= repeatIntervals.Values
        invariant sched.Valid()
        invariant sched.timers == old(sched.timers) - (repeatIntervals.Values - pending)
        decreases pending
      {
        var h :| h in pending;
        sched.Clear(h);
        pending := pending - {h};
      }
      ClearDemoTimeouts();
    }

    // ----- Input wiring -----

    /** The window's keydown listener (src/components/DrumPad.tsx:673-681): an auto-repeated
        keydown is ignored; otherwise the first pad whose key matches ignoring case starts
        being held. */
    method HandleKeyDown(key: string, repeat: bool)
      requires Valid()
      modifies this, sched
      ensures Valid()
      ensures repeat || KeyToPad(key).None? ==> unchanged(this) && unchanged(sched)
      ensures !repeat && KeyToPad(key).Some? ==>
        var pad := KeyToPad(key).value;
        var h := PulseNext(old(sched.next), pad);
        && heldPads == old(heldPads)[pad := true]
        && sounds == Dispatched(old(sounds), pad, false)
        && activePad == Pulsed(old(activePad), pad)
        && repeatIntervals == old(repeatIntervals)[pad := h]
        && sched.timers == HoldTimers(old(sched.timers), old(repeatIntervals), old(sched.next), sched.now, pad)
        && sched.next == h + 1 && sched.now == old(sched.now)
        && isPlayingDemo == old(isPlayingDemo) && demoProgress == old(demoProgress)
        && demoTimeouts == old(demoTimeouts)
        && RepeatsAt(sched.timers, pad, repeatIntervals[pad])
        && IsLit(pad)
    {
      if !repeat {
        var pad := KeyToPad(key);
        if pad.Some? {
          HandlePadHold(pad.value, true);
        }
      }
    }

    /** The window's keyup listener (src/components/DrumPad.tsx:683-689): the matching pad
        stops being held and nothing repeats it any more. */
    method HandleKeyUp(key: string)
      requires Valid()
      modifies this, sched
      ensures Valid()
      ensures KeyToPad(key).None? ==> unchanged(this) && unchanged(sched)
      ensures KeyToPad(key).Some? ==>
        var pad := KeyToPad(key).value;
        && heldPads == old(heldPads)[pad := false]
        && repeatIntervals == old(repeatIntervals) - {pad}
        && sounds == old(sounds) && activePad == old(activePad)
        && sched.timers == Cancelled(old(sched.timers), old(repeatIntervals), pad)
        && sched.next == old(sched.next) && sched.now == old(sched.now)
        && isPlayingDemo == old(isPlayingDemo) && demoProgress == old(demoProgress)
        && demoTimeouts == old(demoTimeouts)
        && (pad in old(repeatIntervals) ==> sched.Retired(old(repeatIntervals)[pad]))
        && forall h | h in sched.timers :: sched.timers[h].task != RepeatTick(pad)
    {
      var pad := KeyToPad(key);
      if pad.Some? {
        HandlePadHold(pad.value, false);
      }
    }

    /** A pad button's mouse handlers (src/components/DrumPad.tsx:43-46): pressing holds the
        pad, releasing or leaving ends the hold, and a click triggers it once more. */
    method HandlePadMouse(pad: PadId, event: MouseEvent)
      requires Valid()
      modifies this, sched
      ensures Valid()
      ensures sched.now == old(sched.now)
      ensures isPlayingDemo == old(isPlayingDemo) && demoProgress == old(demoProgress)
      ensures demoTimeouts == old(demoTimeouts)
      ensures event == MouseDown ==>
        var h := PulseNext(old(sched.next), pad);
        && heldPads == old(heldPads)[pad := true]
        && sounds == Dispatched(old(sounds), pad, false)
        && activePad == Pulsed(old(activePad), pad)
        && repeatIntervals == old(repeatIntervals)[pad := h]
        && sched.timers == HoldTimers(old(sched.timers), old(repeatIntervals), old(sched.next), sched.now, pad)
        && sched.next == h + 1
        && RepeatsAt(sched.timers, pad, repeatIntervals[pad]) && IsLit(pad)
      ensures event == MouseUp || event == MouseLeave ==>
        && heldPads == old(heldPads)[pad := false]
        && repeatIntervals == old(repeatIntervals) - {pad}
        && sounds == old(sounds) && activePad == old(activePad)
        && sched.timers == Cancelled(old(sched.timers), old(repeatIntervals), pad)
        && sched.next == old(sched.next)
        && forall h | h in sched.timers :: sched.timers[h].task != RepeatTick(pad)
      ensures event == Click ==>
        && heldPads == old(heldPads) && repeatIntervals == old(repeatIntervals)
        && sounds == Dispatched(old(sounds), pad, false) && activePad == Pulsed(old(activePad), pad)
        && sched.timers == PulseTimers(old(sched.timers), old(sched.next), sched.now, pad, false)
        && sched.next == PulseNext(old(sched.next), pad)
    {
      match event
      case MouseDown => HandlePadHold(pad, true);
      case MouseUp => HandlePadHold(pad, false);
      case MouseLeave => HandlePadHold(pad, false);
      case Click =>
        PulseKeepsInvariants(heldPads, repeatIntervals, isPlayingDemo, demoProgress, demoTimeouts,
                             sched.timers, sched.next, sched.now, pad, false);
        HandlePadTrigger(pad, false);
    }
  }
}
