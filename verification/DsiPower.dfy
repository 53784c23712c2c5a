/** Power life cycle of a single DSI link: link clocks gate with the display, while the analog
    supplies and the PHY stay up from their first success on. */
module DsiPower {
  import opened Common

  /** What the PHY was trained with; of it the host uses the byte interface divider. */
  datatype Timings = Timings(byteIntfDiv2: bool, rest: nat)

  /** Results of enabling the four link clocks; an error stops at its clock. */
  datatype LinkClks = LinkClks(esc: int, byteClk: int, pixel: int, byteIntf: int)

  /** How one attempt to bring the link up turns out, step by step. */
  datatype Outcome = Outcome(phy: int, timings: Timings, supplies: int,
                             clks: LinkClks, rateAfter: int, pins: int)

  datatype Event =
    | PreEnable(outcome: Outcome)
    | PostDisable
    | TransferEntered
    | TransferPrepared(clks: LinkClks)
    | TransferRestored
    | ModeSet(byteRate: nat)

  predicate Works(c: LinkClks) {
    c.esc == 0 && c.byteClk == 0 && c.pixel == 0 && c.byteIntf == 0
  }

  /** No transfer's clock enable fails. */
  predicate EnablesWork(events: seq<Event>) {
    forall k :: 0 <= k < |events| && events[k].TransferPrepared? ==> Works(events[k].clks)
  }

  /** The first of two results that is an error. */
  function Or(rc: int, next: int): int {
    if rc != 0 then rc else next
  }

  function Less(count: nat): nat {
    if count == 0 then 0 else count - 1
  }

  function Failures(ok: seq<bool>): nat {
    if ok == [] then 0 else Failures(ok[..|ok| - 1]) + One(!ok[|ok| - 1])
  }

  // ---------------------------------------------------------------- what a run amounts to

  /** Where a run begins. */
  datatype Begin = Begin(on: bool, held: bool, phy: bool, saved: Timings, rate: nat, intf: nat, irq: nat)

  /** The PHY is trained by the first attempt that manages to. */
  ghost predicate PhyReady(b: Begin, events: seq<Event>) {
    b.phy || exists k :: 0 <= k < |events| && events[k].PreEnable? && events[k].outcome.phy == 0
  }

  function Trained(b: Begin, events: seq<Event>): Timings {
    if b.phy || events == [] then b.saved
    else if events[0].PreEnable? && events[0].outcome.phy == 0 then events[0].outcome.timings
    else Trained(b, events[1..])
  }

  /** The supplies are held from the first attempt on that finds the PHY trained and gets them. */
  ghost predicate SuppliesHeld(b: Begin, events: seq<Event>) {
    b.held || exists k :: 0 <= k < |events| && events[k].PreEnable? && events[k].outcome.supplies == 0
                            && PhyReady(b, events[..k + 1])
  }

  /** The host is on exactly from an attempt whose every step worked, or was done with before, to the
      next post_disable. */
  ghost predicate On(b: Begin, events: seq<Event>) {
    if events == [] then b.on
    else
      var was := events[..|events| - 1];
      match events[|events| - 1]
      case PreEnable(o) =>
        || On(b, was)
        || (PhyReady(b, events) && SuppliesHeld(b, events) && Works(o.clks) && o.rateAfter == 0 && o.pins == 0)
      case PostDisable => false
      case _ => On(b, was)
  }

  /** The rate of the last mode set. */
  function LastRate(b: Begin, events: seq<Event>): nat {
    if events == [] then b.rate
    else if events[|events| - 1].ModeSet? then events[|events| - 1].byteRate
    else LastRate(b, events[..|events| - 1])
  }

  /** The byte interface follows the mode set before the last attempt to power a host that is off, at
      half the rate if the PHY was trained so. */
  ghost function InterfaceRate(b: Begin, events: seq<Event>): nat {
    if events == [] then b.intf
    else
      var was := events[..|events| - 1];
      if events[|events| - 1].PreEnable? && PhyReady(b, events) && !On(b, was) then
        if Trained(b, events).byteIntfDiv2 then LastRate(b, was) / 2 else LastRate(b, was)
      else InterfaceRate(b, was)
  }

  /** How deep the interrupt is masked: once less for every attempt that left the host on, once more for
      every post_disable. */
  ghost function IrqDepth(b: Begin, events: seq<Event>): nat {
    if events == [] then b.irq
    else
      var was := IrqDepth(b, events[..|events| - 1]);
      match events[|events| - 1]
      case PreEnable(_) => if On(b, events) then Less(was) else was
      case PostDisable => was + 1
      case _ => was
  }

  predicate AllWork(events: seq<Event>) {
    forall k :: 0 <= k < |events| && events[k].PreEnable? ==>
      var o := events[k].outcome;
      o.phy == 0 && o.supplies == 0 && Works(o.clks) && o.rateAfter == 0 && o.pins == 0
  }

  /** The last event that switches power, if there is one. */
  function LastSwitch(events: seq<Event>): Option<Event> {
    if events == [] then None
    else if events[|events| - 1].PreEnable? || events[|events| - 1].PostDisable? then Some(events[|events| - 1])
    else LastSwitch(events[..|events| - 1])
  }

  /** Where every attempt works, the host is on exactly if it was last switched on. */
  lemma {:induction false} OnIfSwitchedOn(b: Begin, events: seq<Event>)
    requires AllWork(events)
    ensures On(b, events) <==>
              match LastSwitch(events) case None => b.on case Some(e) => e.PreEnable?
  {
    if events != [] {
      var n := |events| - 1;
      OnIfSwitchedOn(b, events[..n]);
      if events[n].PreEnable? {
        assert events[..n + 1] == events;
        assert PhyReady(b, events) && SuppliesHeld(b, events);
      }
    }
  }

  lemma {:induction false} TrainedGrows(b: Begin, events: seq<Event>, e: Event)
    ensures PhyReady(b, events + [e]) <==> PhyReady(b, events) || (e.PreEnable? && e.outcome.phy == 0)
    ensures PhyReady(b, events) ==> Trained(b, events + [e]) == Trained(b, events)
    ensures !PhyReady(b, events) ==> Trained(b, events) == b.saved
    ensures !PhyReady(b, events + [e]) ==> Trained(b, events + [e]) == b.saved
    ensures !PhyReady(b, events) && e.PreEnable? && e.outcome.phy == 0 ==>
              Trained(b, events + [e]) == e.outcome.timings
  {
    var all := events + [e];
    assert all[|events|] == e && forall k :: 0 <= k < |events| ==> all[k] == events[k];
    if !b.phy && events != [] {
      TrainedGrows(b, events[1..], e);
      assert all[1..] == events[1..] + [e];
      assert forall k :: 0 <= k < |events| - 1 ==> events[1..][k] == events[k + 1];
      assert PhyReady(b, events) <==>
               (events[0].PreEnable? && events[0].outcome.phy == 0) || PhyReady(b, events[1..]) by {
        if PhyReady(b, events) {
          var k :| 0 <= k < |events| && events[k].PreEnable? && events[k].outcome.phy == 0;
          if k > 0 {
            assert events[1..][k - 1] == events[k];
          }
        }
      }
    }
  }

  lemma HeldGrows(b: Begin, events: seq<Event>, e: Event)
    ensures SuppliesHeld(b, events + [e]) <==>
              SuppliesHeld(b, events) || (e.PreEnable? && e.outcome.supplies == 0 && PhyReady(b, events + [e]))
  {
    var all := events + [e];
    assert all[..|all|] == all;
    forall k | 0 <= k < |events| ensures all[..k + 1] == events[..k + 1] && all[k] == events[k] {
    }
    if SuppliesHeld(b, events) && !b.held {
      var k :| 0 <= k < |events| && events[k].PreEnable? && events[k].outcome.supplies == 0
               && PhyReady(b, events[..k + 1]);
      assert all[k].PreEnable? && PhyReady(b, all[..k + 1]);
    }
    if e.PreEnable? && e.outcome.supplies == 0 && PhyReady(b, all) {
      assert all[|events|] == e;
    }
  }

  class Link {
    // enable counts of the link clocks
    var esc: nat
    var byteClk: nat
    var pixel: nat
    var byteIntf: nat

    var powerOn: bool
    var enabled: bool
    var analogHeld: bool
    var phyEnabled: bool
    var saved: Timings
    var byteRate: nat
    var byteIntfRate: nat
    var irqDepth: nat
    var waiting: nat            // transfers past the power check, not yet prepared
    var inFlight: nat           // prepared, not yet restored; the command mutex admits one

    var supplyEnables: nat
    var supplyDisables: nat
    var phyResets: nat

    /** Prepared transfers whose clocks did not come on, which nobody notices. */
    ghost var missed: nat
    /** Clock disables that met a count of zero. */
    ghost var underflows: nat
    /** post_disable calls that found the host off, and pre_enable calls that found it on. */
    ghost var strayDisables: nat
    ghost var strayEnables: nat
    /** Interrupt enables that met a depth of zero. */
    ghost var irqWarnings: nat

    constructor ()
      ensures Valid() && !powerOn && inFlight == 0 && irqDepth == 1 && !phyEnabled && !analogHeld
      ensures missed == 0 && strayDisables == 0 && strayEnables == 0 && irqWarnings == 0
    {
      esc, byteClk, pixel, byteIntf := 0, 0, 0, 0;
      powerOn, enabled, analogHeld, phyEnabled := false, false, false, false;
      saved, byteRate, byteIntfRate, irqDepth := Timings(false, 0), 0, 0, 1;
      waiting, inFlight, supplyEnables, supplyDisables, phyResets := 0, 0, 0, 0, 0;
      missed, underflows, strayDisables, strayEnables, irqWarnings := 0, 0, 0, 0, 0;
    }

    ghost predicate SameClocks()
      reads this
    {
      esc == byteClk == pixel == byteIntf
    }

    /** The clock ledger: one enable while powered, one per transfer in flight, less the enables
        that were missed, more the disables that found nothing to disable. */
    ghost predicate ClocksBalance()
      reads this
    {
      SameClocks() && esc + missed == One(powerOn) + inFlight + underflows && underflows <= missed
    }

    ghost predicate IrqBalances()
      reads this
    {
      && irqDepth + strayEnables == One(!powerOn) + strayDisables + irqWarnings
      && irqWarnings <= strayEnables
    }

    ghost predicate Valid()
      reads this
    {
      && ClocksBalance() && IrqBalances() && inFlight <= 1
      && supplyEnables == One(analogHeld) && supplyDisables == 0
      && (powerOn ==> analogHeld && phyEnabled)
    }

    /** While no transfer's enable was missed, every link clock is enabled exactly once for the
        powered host and once for each transfer in flight, and no disable met a zero count. */
    lemma ClocksExact()
      requires Valid()
      ensures missed == 0 ==> esc == byteClk == pixel == byteIntf == One(powerOn) + inFlight && underflows == 0
      ensures esc == One(powerOn) + inFlight <==> missed == underflows
    {
    }

    /** While pre_enable and post_disable alternate, the interrupt of a powered host is unmasked
        exactly if no post_disable ever ran on a host that had failed to power on. */
    lemma IrqExact()
      requires Valid() && strayEnables == 0
      ensures irqWarnings == 0 && irqDepth == One(!powerOn) + strayDisables
      ensures powerOn ==> (irqDepth == 0 <==> strayDisables == 0)
    {
    }

    /** Enables the four clocks in order and unwinds on failure. */
    method LinkClkEnable(c: LinkClks) returns (rc: int)
      modifies `esc, `byteClk, `pixel, `byteIntf
      ensures rc == 0 <==> Works(c)
      ensures rc == Or(c.esc, Or(c.byteClk, Or(c.pixel, c.byteIntf)))
      ensures esc == old(esc) + One(rc == 0) && byteClk == old(byteClk) + One(rc == 0)
      ensures pixel == old(pixel) + One(rc == 0) && byteIntf == old(byteIntf) + One(rc == 0)
    {
      rc := c.esc;
      if rc != 0 { return; }
      esc := esc + 1;
      rc := c.byteClk;
      if rc == 0 {
        byteClk := byteClk + 1;
        rc := c.pixel;
        if rc == 0 {
          pixel := pixel + 1;
          rc := c.byteIntf;
          if rc == 0 {
            byteIntf := byteIntf + 1;
            return;
          }
          pixel := Less(pixel);
        }
        byteClk := Less(byteClk);
      }
      esc := Less(esc);
    }

    method LinkClkDisable()
      requires SameClocks()
      modifies `esc, `byteClk, `pixel, `byteIntf, `underflows
      ensures SameClocks() && esc == Less(old(esc))
      ensures underflows == old(underflows) + One(old(esc) == 0)
    {
      underflows := underflows + One(esc == 0);
      esc := Less(esc);
      pixel := Less(pixel);
      byteIntf := Less(byteIntf);
      byteClk := Less(byteClk);
    }

    method EnableIrq()
      modifies `irqDepth, `irqWarnings
      ensures irqDepth == Less(old(irqDepth)) && irqWarnings == old(irqWarnings) + One(old(irqDepth) == 0)
    {
      irqWarnings := irqWarnings + One(irqDepth == 0);
      irqDepth := Less(irqDepth);
    }

    /** The PHY is reset and trained until that succeeds once; from then on the timings it was
        trained with are handed out again. */
    method PhyEnable(o: Outcome) returns (rc: int, timings: Timings)
      modifies `phyEnabled, `saved, `phyResets
      ensures old(phyEnabled) ==> rc == 0 && phyResets == old(phyResets) && saved == old(saved)
      ensures !old(phyEnabled) ==> rc == o.phy && phyResets == old(phyResets) + 1
      ensures phyEnabled == (old(phyEnabled) || rc == 0)
      ensures rc == 0 ==> timings == saved
      ensures rc == 0 && !old(phyEnabled) ==> saved == o.timings
      ensures rc != 0 ==> saved == old(saved)
    {
      timings := o.timings;
      if phyEnabled { return 0, saved; }
      phyResets := phyResets + 1;
      if o.phy != 0 { return o.phy, timings; }
      phyEnabled, saved := true, timings;
      return 0, timings;
    }

    predicate ComesUp(o: Outcome)
      reads `powerOn, `analogHeld
    {
      powerOn || ((analogHeld || o.supplies == 0) && Works(o.clks) && o.rateAfter == 0 && o.pins == 0)
    }

    /** Brings the host up; every failure leaves the clock ledger balanced and the supplies held. */
    method PowerOn(timings: Timings, o: Outcome) returns (rc: int)
      requires ClocksBalance()
      modifies `esc, `byteClk, `pixel, `byteIntf, `underflows
      modifies `powerOn, `analogHeld, `byteIntfRate, `supplyEnables, `supplyDisables
      ensures ClocksBalance() && underflows == old(underflows)
      ensures rc == 0 <==> old(ComesUp(o))
      ensures !old(powerOn) ==>
                rc == Or(if old(analogHeld) then 0 else o.supplies,
                         Or(Or(o.clks.esc, Or(o.clks.byteClk, Or(o.clks.pixel, o.clks.byteIntf))),
                            Or(o.rateAfter, o.pins)))
      ensures powerOn == (rc == 0)
      ensures old(powerOn) ==> analogHeld == old(analogHeld) && byteIntfRate == old(byteIntfRate)
      ensures !old(powerOn) ==> analogHeld == (old(analogHeld) || o.supplies == 0)
      ensures !old(powerOn) ==> byteIntfRate == if timings.byteIntfDiv2 then byteRate / 2 else byteRate
      ensures supplyEnables == old(supplyEnables) + One(analogHeld && !old(analogHeld))
      ensures supplyDisables == old(supplyDisables)
    {
      if powerOn { return 0; }
      byteIntfRate := if timings.byteIntfDiv2 then byteRate / 2 else byteRate;
      if !analogHeld {
        if o.supplies != 0 { return o.supplies; }
        supplyEnables := supplyEnables + 1;
        analogHeld := true;
      }
      // Setting the rate before the PLL runs may fail without consequence; it is set again below.
      rc := LinkClkEnable(o.clks);
      if rc == 0 {
        rc := if o.rateAfter != 0 then o.rateAfter else o.pins;
        if rc == 0 {
          powerOn := true;
          return;
        }
        LinkClkDisable();
      }
      if !analogHeld {
        assert false;   // the supplies would be dropped here, were they not held by now
      }
    }

    method PowerOff()
      requires ClocksBalance()
      modifies `esc, `byteClk, `pixel, `byteIntf, `underflows, `powerOn
      ensures ClocksBalance() && !powerOn
      ensures underflows == old(underflows) + One(old(powerOn) && old(esc) == 0)
    {
      if !powerOn { return; }
      LinkClkDisable();
      powerOn := false;
    }

    /** PHY, host and interrupt, in that order, each only if the one before came up. */
    method BridgePowerOn(o: Outcome) returns (rc: int)
      requires ClocksBalance() && (powerOn ==> phyEnabled)
      modifies `esc, `byteClk, `pixel, `byteIntf, `underflows
      modifies `powerOn, `analogHeld, `byteIntfRate, `supplyEnables, `supplyDisables
      modifies `phyEnabled, `saved, `phyResets, `irqDepth, `irqWarnings
      ensures ClocksBalance() && underflows == old(underflows)
      ensures rc == 0 <==> (old(phyEnabled) || o.phy == 0) && old(ComesUp(o))
      ensures powerOn == (rc == 0) && (rc == 0 ==> phyEnabled)
      ensures old(powerOn) ==> rc == 0 && analogHeld == old(analogHeld) && byteIntfRate == old(byteIntfRate)
      ensures !old(powerOn) ==> analogHeld == (old(analogHeld) || (phyEnabled && o.supplies == 0))
      ensures !old(powerOn) ==>
                byteIntfRate == if !phyEnabled then old(byteIntfRate)
                                else if saved.byteIntfDiv2 then byteRate / 2 else byteRate
      ensures supplyEnables == old(supplyEnables) + One(analogHeld && !old(analogHeld))
      ensures supplyDisables == old(supplyDisables)
      ensures phyEnabled == (old(phyEnabled) || o.phy == 0) && phyResets == old(phyResets) + One(!old(phyEnabled))
      ensures saved == if phyEnabled && !old(phyEnabled) then o.timings else old(saved)
      ensures irqDepth == if rc == 0 then Less(old(irqDepth)) else old(irqDepth)
      ensures irqWarnings == old(irqWarnings) + One(rc == 0 && old(irqDepth) == 0)
    {
      hide Works;
      var timings;
      rc, timings := PhyEnable(o);
      if rc != 0 { return; }
      rc := PowerOn(timings, o);
      if rc != 0 { return; }
      EnableIrq();
    }

    /** The bridge's pre_enable. It has no result to give; `up` tells whether the link came up. */
    method PreEnable(o: Outcome) returns (up: bool)
      requires Valid()
      modifies this
      ensures Valid() && inFlight == old(inFlight) && waiting == old(waiting) && missed == old(missed)
      ensures strayDisables == old(strayDisables) && underflows == old(underflows)
      ensures strayEnables == old(strayEnables) + One(old(powerOn))
      ensures up <==> (old(phyEnabled) || o.phy == 0) && old(ComesUp(o))
      ensures powerOn == up && enabled == (old(enabled) || up)
      ensures irqDepth == if up then Less(old(irqDepth)) else old(irqDepth)
      ensures analogHeld == (old(analogHeld) || (phyEnabled && o.supplies == 0))
      ensures phyEnabled == (old(phyEnabled) || o.phy == 0) && phyResets == old(phyResets) + One(!old(phyEnabled))
      ensures saved == if phyEnabled && !old(phyEnabled) then o.timings else old(saved)
      ensures byteRate == old(byteRate)
      ensures byteIntfRate == if old(powerOn) || !phyEnabled then old(byteIntfRate)
                              else if saved.byteIntfDiv2 then byteRate / 2 else byteRate
    {
      hide Works;
      strayEnables := strayEnables + One(powerOn);
      var rc := BridgePowerOn(o);
      if rc != 0 { return false; }
      enabled := true;
      return true;
    }

    /** The bridge's post_disable: only the link clocks go. */
    method PostDisable()
      requires Valid()
      modifies this
      ensures Valid() && !powerOn && !enabled
      ensures irqDepth == old(irqDepth) + 1 && strayDisables == old(strayDisables) + One(!old(powerOn))
      ensures waiting == old(waiting) && byteRate == old(byteRate) && byteIntfRate == old(byteIntfRate)
      ensures strayEnables == old(strayEnables) && irqWarnings == old(irqWarnings)
      ensures analogHeld == old(analogHeld) && phyEnabled == old(phyEnabled) && saved == old(saved)
      ensures phyResets == old(phyResets) && inFlight == old(inFlight) && missed == old(missed)
      ensures underflows == old(underflows) + One(old(powerOn) && old(esc) == 0)
    {
      enabled := false;
      irqDepth := irqDepth + 1;
      strayDisables := strayDisables + One(!powerOn);
      PowerOff();
    }

    /** A transfer checks for power before it waits for the command mutex. */
    method TransferEnter() returns (rc: int)
      requires Valid()
      modifies `waiting
      ensures Valid() && rc == (if powerOn then 0 else -EINVAL)
      ensures waiting == old(waiting) + One(powerOn)
    {
      if !powerOn { return -EINVAL; }
      waiting := waiting + 1;
      return 0;
    }

    method XferPrepare(c: LinkClks)
      requires Valid() && waiting > 0 && inFlight == 0
      modifies this
      ensures Valid() && inFlight == 1 && waiting == old(waiting) - 1
      ensures missed == old(missed) + One(!Works(c))
      ensures esc == old(esc) + One(Works(c)) && underflows == old(underflows)
      ensures powerOn == old(powerOn) && irqDepth == old(irqDepth) && phyResets == old(phyResets)
      ensures analogHeld == old(analogHeld) && phyEnabled == old(phyEnabled) && saved == old(saved)
      ensures enabled == old(enabled) && byteRate == old(byteRate) && byteIntfRate == old(byteIntfRate)
    {
      waiting, inFlight := waiting - 1, 1;
      missed := missed + One(!Works(c));
      var ignored := LinkClkEnable(c);
    }

    method XferRestore()
      requires Valid() && inFlight > 0
      modifies this
      ensures Valid() && inFlight == old(inFlight) - 1 && missed == old(missed)
      ensures esc == Less(old(esc)) && underflows == old(underflows) + One(old(esc) == 0)
      ensures powerOn == old(powerOn) && irqDepth == old(irqDepth) && phyResets == old(phyResets)
      ensures analogHeld == old(analogHeld) && phyEnabled == old(phyEnabled) && saved == old(saved)
      ensures enabled == old(enabled) && byteRate == old(byteRate) && byteIntfRate == old(byteIntfRate)
      ensures waiting == old(waiting)
    {
      LinkClkDisable();
      inFlight := inFlight - 1;
    }

    /** The link is what a run from `b` over `events` amounts to. */
    ghost predicate Amounts(b: Begin, events: seq<Event>)
      reads this
    {
      && powerOn == On(b, events) && analogHeld == SuppliesHeld(b, events)
      && phyEnabled == PhyReady(b, events) && saved == Trained(b, events)
      && byteRate == LastRate(b, events) && byteIntfRate == InterfaceRate(b, events)
      && irqDepth == IrqDepth(b, events)
    }

    ghost function Now(): Begin
      reads this
    {
      Begin(powerOn, analogHeld, phyEnabled, saved, byteRate, byteIntfRate, irqDepth)
    }

    /** What transfers and mode sets leave alone. */
    twostate predicate SamePower()
      reads this
    {
      && powerOn == old(powerOn) && enabled == old(enabled) && analogHeld == old(analogHeld)
      && phyEnabled == old(phyEnabled) && saved == old(saved) && byteIntfRate == old(byteIntfRate)
      && irqDepth == old(irqDepth) && phyResets == old(phyResets)
    }

    /** Anything that happens next; an event that cannot happen changes nothing. */
    method Handle(e: Event)
      requires Valid()
      modifies this
      ensures Valid()
      ensures e.PreEnable? ==>
                && powerOn == ((old(phyEnabled) || e.outcome.phy == 0) && old(ComesUp(e.outcome)))
                && irqDepth == (if powerOn then Less(old(irqDepth)) else old(irqDepth))
                && enabled == (old(enabled) || powerOn)
                && phyEnabled == (old(phyEnabled) || e.outcome.phy == 0)
                && saved == (if phyEnabled && !old(phyEnabled) then e.outcome.timings else old(saved))
                && phyResets == old(phyResets) + One(!old(phyEnabled))
                && analogHeld == (old(analogHeld) || (phyEnabled && e.outcome.supplies == 0))
                && byteIntfRate == (if old(powerOn) || !phyEnabled then old(byteIntfRate)
                                    else if saved.byteIntfDiv2 then byteRate / 2 else byteRate)
      ensures e.PostDisable? ==>
                && !powerOn && !enabled && irqDepth == old(irqDepth) + 1 && byteIntfRate == old(byteIntfRate)
                && analogHeld == old(analogHeld) && phyEnabled == old(phyEnabled) && saved == old(saved)
                && phyResets == old(phyResets)
      ensures !e.PreEnable? && !e.PostDisable? ==> SamePower()
      ensures waiting == old(waiting) + One(e.TransferEntered? && powerOn)
                         - One(e.TransferPrepared? && old(waiting) > 0 && old(inFlight) == 0)
      ensures inFlight == if e.TransferPrepared? && old(waiting) > 0 then 1
                          else if e.TransferRestored? then 0 else old(inFlight)
      ensures e.TransferPrepared? && old(waiting) > 0 && old(inFlight) == 0 ==> esc == old(esc) + One(Works(e.clks))
      ensures byteRate == if e.ModeSet? then e.byteRate else old(byteRate)
      ensures !(e.TransferPrepared? && !Works(e.clks)) ==> missed == old(missed)
      ensures !e.TransferRestored? && old(esc) >= One(old(powerOn)) ==> underflows == old(underflows)
    {
      match e {
        case PreEnable(o) =>
          var ignored := PreEnable(o);
        case PostDisable =>
          PostDisable();
        case TransferEntered =>
          var ignored := TransferEnter();
        case TransferPrepared(c) =>
          if waiting > 0 && inFlight == 0 {
            XferPrepare(c);
          }
        case TransferRestored =>
          if inFlight > 0 {
            XferRestore();
          }
        case ModeSet(rate) =>
          byteRate := rate;
      }
    }

    /** One more event of a run. */
    method HandleNext(ghost b: Begin, ghost events: seq<Event>, e: Event)
      requires Valid() && Amounts(b, events)
      modifies this
      ensures Valid() && Amounts(b, events + [e])
      ensures !(e.TransferPrepared? && !Works(e.clks)) ==> missed == old(missed)
      ensures old(phyEnabled) ==> phyResets == old(phyResets)
    {
      hide PhyReady, SuppliesHeld;
      TrainedGrows(b, events, e);
      HeldGrows(b, events, e);
      assert (events + [e])[..|events|] == events;
      Handle(e);
    }

    /** Over any run, with power changes falling anywhere between a transfer's steps: the ledgers
        stay balanced, the supplies are enabled at most once and never disabled, a trained PHY is
        never reset again, and power, supplies, PHY and rates are what the events amount to. */
    method Run(events: seq<Event>)
      requires Valid()
      modifies this
      ensures Valid() && supplyEnables <= 1 && supplyDisables == 0
      ensures Amounts(old(Now()), events)
      ensures old(phyEnabled) ==> phyResets == old(phyResets)
      ensures EnablesWork(events) ==> missed == old(missed)
      ensures EnablesWork(events) && old(missed) == 0 ==>
                esc == byteClk == pixel == byteIntf == One(powerOn) + inFlight && underflows == 0
      ensures AllWork(events) ==>
                (powerOn <==> match LastSwitch(events) case None => old(powerOn) case Some(e) => e.PreEnable?)
    {
      ghost var b := Now();
      var k := 0;
      while k < |events|
        invariant 0 <= k <= |events| && Valid() && Amounts(b, events[..k])
        invariant old(phyEnabled) ==> phyEnabled && phyResets == old(phyResets)
        invariant EnablesWork(events[..k]) ==> missed == old(missed)
      {
        assert EnablesWork(events[..k + 1]) ==> EnablesWork(events[..k]) by {
          assert forall j :: 0 <= j < k ==> events[..k + 1][j] == events[..k][j];
        }
        assert events[..k + 1][k] == events[k] && events[..k + 1] == events[..k] + [events[k]];
        HandleNext(b, events[..k], events[k]);
        k := k + 1;
      }
      assert events[..k] == events;
      if AllWork(events) {
        OnIfSwitchedOn(b, events);
      }
    }

    /** A transfer gives back what it took exactly if its enable worked or the host is off by then,
        whatever happens to the power in between. */
    method TransferAcross(c: LinkClks, events: seq<Event>)
      requires Valid() && waiting > 0 && inFlight == 0 && esc == One(powerOn)
      requires forall k :: 0 <= k < |events| ==> !events[k].TransferPrepared? && !events[k].TransferRestored?
      modifies this
      ensures Valid() && inFlight == 0
      ensures esc == One(powerOn) <==> Works(c) || !powerOn
    {
      XferPrepare(c);
      ghost var taken := underflows;
      var k := 0;
      while k < |events|
        invariant 0 <= k <= |events| && Valid() && inFlight == 1
        invariant underflows == taken && esc == One(powerOn) + One(Works(c))
      {
        ghost var missing := missed;
        Handle(events[k]);
        assert missed == missing;
        k := k + 1;
      }
      XferRestore();
    }

    /** Cycles of pre_enable and post_disable from the first on: every attempt that failed to bring
        the link up leaves the interrupt masked once more, for good. */
    method Cycles(outcomes: seq<Outcome>) returns (up: seq<bool>)
      requires Valid() && !powerOn && irqDepth == 1 && strayEnables == 0 && strayDisables == 0
      modifies this
      ensures Valid() && !powerOn && |up| == |outcomes|
      ensures strayEnables == 0 && irqDepth == 1 + Failures(up)
    {
      up := [];
      while |up| < |outcomes|
        invariant |up| <= |outcomes| && Valid() && !powerOn
        invariant strayEnables == 0 && irqDepth == 1 + Failures(up)
        decreases |outcomes| - |up|
      {
        var ok := PreEnable(outcomes[|up|]);
        PostDisable();
        assert (up + [ok])[..|up|] == up;
        up := up + [ok];
      }
    }

    /** So a link that comes up after some cycles gets its interrupt exactly if none of them failed. */
    method CyclesThenOn(outcomes: seq<Outcome>, last: Outcome) returns (up: seq<bool>, on: bool)
      requires Valid() && !powerOn && irqDepth == 1 && strayEnables == 0 && strayDisables == 0
      modifies this
      ensures Valid() && on == powerOn && |up| == |outcomes|
      ensures on ==> (irqDepth == 0 <==> forall k :: 0 <= k < |up| ==> up[k])
    {
      up := Cycles(outcomes);
      on := PreEnable(last);
      NoFailures(up);
    }
  }

  lemma {:induction false} NoFailures(ok: seq<bool>)
    ensures Failures(ok) == 0 <==> forall k :: 0 <= k < |ok| ==> ok[k]
  {
    if ok != [] {
      NoFailures(ok[..|ok| - 1]);
    }
  }

  /** One failed attempt is enough: afterwards the link is up, powered and deaf to its interrupt. */
  method FailedPowerOnMasksTheInterrupt() returns (link: Link)
    ensures fresh(link) && link.Valid() && link.powerOn && link.enabled && link.irqDepth == 1
  {
    link := new Link();
    var works := LinkClks(0, 0, 0, 0);
    var good := Outcome(0, Timings(false, 0), 0, works, 0, 0);
    var up := link.PreEnable(good.(clks := works.(esc := -5)));
    link.PostDisable();
    up := link.PreEnable(good);
  }

  /** A transfer whose clocks failed to come on still gives them back: a powered link is left with
      its clocks off. */
  method MissedEnableStopsThePoweredLink() returns (link: Link)
    ensures fresh(link) && link.Valid() && link.powerOn && link.inFlight == 0 && link.esc == 0
  {
    link := new Link();
    var works := LinkClks(0, 0, 0, 0);
    var up := link.PreEnable(Outcome(0, Timings(false, 0), 0, works, 0, 0));
    var rc := link.TransferEnter();
    link.XferPrepare(works.(byteClk := -5));
    link.XferRestore();
  }
}
