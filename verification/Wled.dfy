/** The WLED backlight driver: the over-voltage interrupt, masked by a depth counter and unmasked
    by a delayed work item that races with brightness updates and short-circuit interrupts. */
module Wled {
  import opened WledBursts

  const ENXIO := 6

  /** What can happen next. WorkDequeued and WorkRuns are the two halves of the delayed work:
      taken off its timer, then unmasking the interrupt. Fault is an over-voltage fault counted where string
      detection is on; AutoDetectGivesUp is that detection finding no usable sink. */
  datatype Event =
    | Update(level: nat)
    | Short(now: int)
    | WorkDequeued
    | WorkRuns
    | Fault(now: int)
    | AutoDetectGivesUp

  /** When the shorts, and the over-voltage faults, of a run came. */
  function ShortTimes(events: seq<Event>): seq<int> {
    if events == [] then []
    else
      var e := events[|events| - 1];
      ShortTimes(events[..|events| - 1]) + if e.Short? then [e.now] else []
  }

  function FaultTimes(events: seq<Event>): seq<int> {
    if events == [] then []
    else
      var e := events[|events| - 1];
      FaultTimes(events[..|events| - 1]) + if e.Fault? then [e.now] else []
  }

  predicate GivesUp(events: seq<Event>) {
    exists k :: 0 <= k < |events| && events[k].AutoDetectGivesUp?
  }

  /** The brightness asked for last. */
  function LastLevel(events: seq<Event>, was: nat): nat {
    if events == [] then was
    else if events[|events| - 1].Update? then events[|events| - 1].level
    else LastLevel(events[..|events| - 1], was)
  }

  /** What one more event adds to the traces. */
  lemma OneMore(events: seq<Event>, i: nat)
    requires i < |events|
    ensures GivesUp(events[..i]) ==> GivesUp(events[..i + 1])
    ensures events[i].AutoDetectGivesUp? ==> GivesUp(events[..i + 1])
    ensures var e, f := events[i], FaultTimes(events[..i]);
            Ovp(FaultTimes(events[..i + 1])).0 == if e.Fault? then OvpStep(Ovp(f).0, e.now).0 else Ovp(f).0
    ensures var e, t := events[i], ShortTimes(events[..i]);
            Shorts(ShortTimes(events[..i + 1])) == if e.Short? then ShortStep(Shorts(t), e.now) else Shorts(t)
  {
    var e, f, t := events[i], FaultTimes(events[..i]), ShortTimes(events[..i]);
    assert events[..i + 1][..i] == events[..i] && events[..i + 1][i] == e;
    assert e.Fault? ==> (f + [e.now])[..|f|] == f;
    assert e.Short? ==> (t + [e.now])[..|t|] == t;
    assert f + [] == f && t + [] == t;
    if GivesUp(events[..i]) {
      var k :| 0 <= k < i && events[..i][k].AutoDetectGivesUp?;
      assert events[..i + 1][k].AutoDetectGivesUp?;
    }
  }

  class Backlight {
    var brightness: nat
    var moduleOn: bool
    var disabledByShort: bool
    var pending: bool          // the work sits on its timer
    var running: bool          // the work is past its timer, before enable_irq
    var depth: nat             // how often the interrupt is disabled; 0 means unmasked
    var shortCount: nat
    var lastShort: int
    var ovpCount: nat
    var ovpStart: int
    /** Short interrupts that found the module switched off. */
    ghost var strayShorts: nat

    /** The line is requested masked, whatever the boot loader left in the module. */
    constructor ()
      ensures NeverUnderflows() && Balanced() && strayShorts == 0
      ensures !moduleOn && !disabledByShort && brightness == 0
      ensures ShortState() == NO_SHORTS && OvpState() == NO_FAULTS
    {
      brightness, moduleOn, disabledByShort := 0, false, false;
      pending, running, depth := false, false, 1;
      shortCount, lastShort, strayShorts := 0, 0, 0;
      ovpCount, ovpStart := 0, 0;
    }

    ghost function ShortState(): Burst
      reads this
    {
      Burst(shortCount, lastShort, disabledByShort)
    }

    ghost function OvpState(): Window
      reads this
    {
      Window(ovpCount, ovpStart)
    }

    /** Enables still to come: one per scheduled or running work item. */
    ghost function Owed(): nat
      reads this
    {
      (if pending then 1 else 0) + (if running then 1 else 0)
    }

    /** The depth switching the module off leads to: a running enable lands first, and a pending
        one is cancelled instead of being paid for with a disable. */
    ghost function DepthOnceOff(): int
      reads this
    {
      depth - (if running then 1 else 0) + (if pending then 0 else 1)
    }

    /** Kept by every event whatsoever, and enough for enable_irq never to meet depth 0. */
    ghost predicate NeverUnderflows()
      reads this
    {
      depth >= Owed() + (if brightness > 0 then 0 else 1)
    }

    /** The exact interrupt state: masked once while off or while an enable is on its way,
        unmasked otherwise. */
    ghost predicate Balanced()
      reads this
    {
      && !(pending && running)
      && (!disabledByShort ==> (moduleOn <==> brightness > 0))
      && (!disabledByShort ==> depth == if moduleOn then Owed() else 1)
      && (!disabledByShort && !moduleOn ==> Owed() == 0)
    }

    method EnableIrq()
      requires depth > 0
      modifies `depth
      ensures depth == old(depth) - 1
    {
      depth := depth - 1;
    }

    method DisableIrq()
      modifies `depth
      ensures depth == old(depth) + 1
    {
      depth := depth + 1;
    }

    /** Second half of the delayed work. */
    method OvpWork()
      requires running && depth > 0
      modifies `running, `depth
      ensures !running && depth == old(depth) - 1
    {
      running := false;
      EnableIrq();
    }

    /** Waits out a running work item; tells whether one was still on its timer. */
    method CancelWorkSync() returns (wasPending: bool)
      requires running ==> depth > 0
      modifies `pending, `running, `depth
      ensures wasPending == old(pending) && !pending && !running
      ensures depth == old(depth) - (if old(running) then 1 else 0)
    {
      wasPending := pending;
      pending := false;
      if running {
        OvpWork();
      }
    }

    method ModuleEnable(on: bool) returns (rc: int)
      requires running ==> depth > 0
      modifies `moduleOn, `pending, `running, `depth
      ensures old(disabledByShort) ==> rc == -ENXIO && unchanged(this)
      ensures !old(disabledByShort) ==> rc == 0 && moduleOn == on
      ensures !old(disabledByShort) && on ==> pending && running == old(running) && depth == old(depth)
      ensures !old(disabledByShort) && !on ==> Owed() == 0 && depth == old(DepthOnceOff())
    {
      if disabledByShort { return -ENXIO; }
      moduleOn := on;
      if on {
        pending := true;
      } else {
        var cancelled := CancelWorkSync();
        if !cancelled {
          DisableIrq();
        }
      }
      return 0;
    }

    /** A brightness update switches the module only when it crosses zero. */
    method UpdateStatus(level: nat) returns (rc: int)
      requires NeverUnderflows()
      modifies `brightness, `moduleOn, `pending, `running, `depth
      ensures NeverUnderflows()
      ensures old(Balanced()) ==> Balanced()
      ensures rc == 0 ==> brightness == level
      ensures rc != 0 <==> old(disabledByShort) && (level > 0) != (old(brightness) > 0)
      ensures rc != 0 ==> unchanged(this)
      ensures (level > 0) == (old(brightness) > 0) ==>
                moduleOn == old(moduleOn) && pending == old(pending) && running == old(running) && depth == old(depth)
      ensures rc == 0 && level > 0 && old(brightness) == 0 ==>
                moduleOn && pending && running == old(running) && depth == old(depth)
      ensures rc == 0 && level == 0 && old(brightness) > 0 ==>
                !moduleOn && Owed() == 0 && depth == old(DepthOnceOff())
    {
      rc := 0;
      if (level > 0) != (brightness > 0) {
        rc := ModuleEnable(level > 0);
        if rc < 0 { return; }
      }
      brightness := level;
    }

    /** A short circuit switches the module off and, unless shorts keep coming, on again. */
    method ShortIrq(now: int)
      requires NeverUnderflows()
      modifies `moduleOn, `pending, `running, `depth, `disabledByShort, `shortCount, `lastShort, `strayShorts
      ensures NeverUnderflows()
      ensures ShortState() == ShortStep(old(ShortState()), now)
      ensures old(disabledByShort) ==>
                moduleOn == old(moduleOn) && pending == old(pending) && running == old(running) && depth == old(depth)
      ensures !old(disabledByShort) ==>
                moduleOn == pending == !disabledByShort && !running && depth == old(DepthOnceOff())
      ensures strayShorts == old(strayShorts) + (if !old(disabledByShort) && !old(moduleOn) then 1 else 0)
      // the assumption the driver makes, and that it is exact
      ensures old(Balanced()) && old(moduleOn) ==> Balanced()
      ensures old(Balanced()) && !disabledByShort ==> (Balanced() <==> old(moduleOn))
    {
      if !disabledByShort && !moduleOn {
        strayShorts := strayShorts + 1;
      }
      shortCount := shortCount + 1;
      var rc := ModuleEnable(false);
      if rc < 0 { return; }
      var elapsed := now - lastShort;
      if elapsed > RESET_US {
        shortCount := 1;
      }
      if shortCount > SHORT_CNT_MAX {
        disabledByShort := true;
        return;
      }
      lastShort := now;
      rc := ModuleEnable(true);
    }

    /** The WLED4 check whether over-voltage faults come often enough to act on. */
    method AutoDetectionRequired(now: int, enabled: bool) returns (required: bool)
      modifies `ovpCount, `ovpStart
      ensures !enabled ==> !required && unchanged(this)
      ensures enabled ==> (OvpState(), required) == OvpStep(old(OvpState()), now)
    {
      if !enabled { return false; }
      if ovpCount == 0 {
        ovpStart := now;
        ovpCount := ovpCount + 1;
      } else {
        var elapsed := now - ovpStart;
        if elapsed > RESET_US {
          ovpCount := 0;
        } else {
          ovpCount := ovpCount + 1;
        }
        if ovpCount >= OVP_COUNT {
          ovpCount := 0;
          return true;
        }
      }
      return false;
    }

    predicate Possible(e: Event)
      reads this
    {
      match e
      case WorkDequeued => pending && !running
      case WorkRuns => running
      case _ => true
    }

    /** First half of the delayed work. */
    method DequeueWork()
      requires pending && !running
      modifies `pending, `running
      ensures !pending && running
    {
      pending, running := false, true;
    }

    twostate predicate SameModule()
      reads this
    {
      moduleOn == old(moduleOn) && pending == old(pending) && running == old(running) && depth == old(depth)
    }

    /** A brightness is taken, and the module follows it across zero, unless the driver has given up and
        would have to switch the module. */
    twostate predicate Updated(level: nat)
      reads this
    {
      var crosses := (level > 0) != (old(brightness) > 0);
      && brightness == (if crosses && old(disabledByShort) then old(brightness) else level)
      && (!crosses || old(disabledByShort) ==> SameModule())
      && (crosses && !old(disabledByShort) ==>
            if level > 0 then moduleOn && pending && running == old(running) && depth == old(depth)
            else !moduleOn && !pending && !running && depth == old(DepthOnceOff()))
    }

    method Handle(e: Event)
      requires Possible(e) && NeverUnderflows()
      modifies this
      ensures NeverUnderflows()
      ensures old(Balanced()) && strayShorts == old(strayShorts) ==> Balanced()
      ensures strayShorts == old(strayShorts) +
                (if e.Short? && !old(disabledByShort) && !old(moduleOn) then 1 else 0)
      ensures old(disabledByShort) ==> disabledByShort
      ensures e.Update? ==> Updated(e.level)
      ensures !e.Update? ==> brightness == old(brightness)
      ensures e.Short? ==>
                if old(disabledByShort) then SameModule()
                else moduleOn == pending == !disabledByShort && !running && depth == old(DepthOnceOff())
      ensures e.WorkDequeued? ==> !pending && running && depth == old(depth) && moduleOn == old(moduleOn)
      ensures e.WorkRuns? ==>
                pending == old(pending) && !running && depth == old(depth) - 1 && moduleOn == old(moduleOn)
      ensures e.Fault? || e.AutoDetectGivesUp? ==> SameModule()
      ensures e.AutoDetectGivesUp? ==> disabledByShort
      ensures !e.Short? && !e.AutoDetectGivesUp? ==> disabledByShort == old(disabledByShort)
      ensures !e.AutoDetectGivesUp? ==>
                ShortState() == if e.Short? then ShortStep(old(ShortState()), e.now) else old(ShortState())
      ensures OvpState() == if e.Fault? then OvpStep(old(OvpState()), e.now).0 else old(OvpState())
    {
      match e {
        case Update(level) => var _ := UpdateStatus(level);
        case Short(now) => ShortIrq(now);
        case WorkDequeued => DequeueWork();
        case WorkRuns => OvpWork();
        case Fault(now) => var _ := AutoDetectionRequired(now, true);
        case AutoDetectGivesUp => disabledByShort := true;
      }
    }

    /** In every interleaving enable_irq meets a positive depth, because the precondition of
        EnableIrq holds at each of its calls; and without stray shorts the interrupt state is
        exact after every event. Until detection gives up, the counters are those of the times at
        which shorts and faults came, so what holds of such traces holds of the driver. */
    method Run(events: seq<Event>)
      requires NeverUnderflows() && Balanced() && strayShorts == 0
      requires ShortState() == NO_SHORTS && OvpState() == NO_FAULTS
      modifies this
      ensures NeverUnderflows()
      ensures strayShorts == 0 ==> Balanced()
      ensures strayShorts == 0 && !disabledByShort ==>
                && (moduleOn && Owed() > 0 ==> depth == 1)
                && (moduleOn && Owed() == 0 ==> depth == 0)
                && (!moduleOn ==> depth == 1 && Owed() == 0)
      // unless the driver has given up, the brightness is the one asked for last, and the module follows
      ensures !disabledByShort ==> brightness == LastLevel(events, old(brightness))
      ensures strayShorts == 0 && !disabledByShort ==> (moduleOn <==> brightness > 0)
      ensures OvpState() == Ovp(FaultTimes(events)).0
      ensures !GivesUp(events) ==> ShortState() == Shorts(ShortTimes(events))
      ensures !GivesUp(events) ==> (disabledByShort <==> exists k: nat :: SixInARow(ShortTimes(events), k))
    {
      for i := 0 to |events|
        invariant NeverUnderflows()
        invariant strayShorts == 0 ==> Balanced()
        invariant !disabledByShort ==> brightness == LastLevel(events[..i], old(brightness))
        invariant OvpState() == Ovp(FaultTimes(events[..i])).0
        invariant !GivesUp(events[..i]) ==> ShortState() == Shorts(ShortTimes(events[..i]))
      {
        OneMore(events, i);
        assert events[..i + 1][..i] == events[..i];
        if Possible(events[i]) {
          Handle(events[i]);
        }
      }
      assert events[..|events|] == events;
      DisabledIffSixInARow(ShortTimes(events));
    }
  }

  /** A short while the backlight is off turns the module on behind the brightness, and leaves
      the interrupt masked once everything has settled. */
  method StrayShort(now: int) returns (b: Backlight)
    ensures fresh(b) && b.strayShorts == 1
    ensures b.moduleOn && b.brightness == 0 && b.Owed() == 0 && b.depth == 1
    ensures !b.Balanced()
  {
    b := new Backlight();
    b.ShortIrq(now);
    b.DequeueWork();
    b.OvpWork();
  }
}
