/** The switch-mode charger driver: input-current selection over two hardware modes, and the
    fast-charge current and float voltage it programs for the battery. */
module Charger {
  import opened Common
  import opened ChargerTables

  const IRQ_NONE := 0     // what the driver returns in place of one error

  // ---------------------------------------------------------------- registers

  const REG_COUNT := 0x700

  const FCC_CFG := 0x0f2
  const FV_CFG := 0x0f4
  const TCC_CFG := 0x0f9
  const CHGR_CFG1 := 0x0fb
  const CHGR_CFG2 := 0x0fc
  const CHGR_CFG := 0x0ff
  const CMD_CHG := 0x242
  const ICL_STS_1 := 0x307
  const CMD_IL := 0x340
  const IL_CFG := 0x3f2
  const AICL_CFG := 0x3f3
  const USB_CFG := 0x3f4
  const APSD_CFG := 0x3f5
  const TRIM_OPT := 0x6f5

  const MASK_5: bv8 := 0x1f       // FCC, input limit and ICL status indices
  const MASK_6: bv8 := 0x3f       // float voltage index
  const HC_BIT: bv8 := 0x01
  const USB51_BIT: bv8 := 0x02
  const OVERRIDE_BIT: bv8 := 0x04
  const SUSPEND_BIT: bv8 := 0x10
  const USB3_BIT: bv8 := 0x80
  const AICL_BIT: bv8 := 0x04

  const SEC_ACCESS_ADDR := 0xd0
  const SEC_ACCESS_VALUE: bv8 := 0xa5

  /** Where a peripheral's secure registers are unlocked. */
  predicate IsUnlock(addr: nat) {
    addr % 0x100 == 0xd0
  }

  function Merge(reg: bv8, mask: bv8, val: bv8): bv8 {
    (reg & !mask) | (val & mask)
  }

  function Index(reg: bv8, mask: bv8): nat {
    (reg & mask) as nat
  }

  lemma MergeReadsBack(reg: bv8, mask: bv8, val: bv8)
    ensures Merge(reg, mask, val) & mask == val & mask
    ensures forall other: bv8 {:trigger Merge(reg, mask, val) & other} ::
              mask & other == 0 ==> Merge(reg, mask, val) & other == reg & other
  {
  }

  /** No current index is truncated on its way into its register field. */
  lemma IndexReadsBack(reg: bv8, i: nat)
    requires i < 32
    ensures Index(Merge(reg, MASK_5, i as bv8), MASK_5) == i
  {
    var b := i as bv8;
    MergeReadsBack(reg, MASK_5, b);
    assert b & MASK_5 == b;
  }

  /** Nor is a float voltage index, offset by 5. */
  lemma VoltageReadsBack(reg: bv8, i: nat)
    requires i < 64
    ensures Index(Merge(reg, MASK_6, i as bv8), MASK_6) == i
  {
    var b := i as bv8;
    MergeReadsBack(reg, MASK_6, b);
    assert b & MASK_6 == b;
  }

  lemma TermReadsBack(reg: bv8, i: nat)
    requires i < 8
    ensures Index(Merge(reg, 0x07, i as bv8), 0x07) == i
  {
    var b := i as bv8;
    MergeReadsBack(reg, 0x07, b);
    assert b & 0x07 == b;
  }

  lemma IndexInRange(reg: bv8)
    ensures Index(reg, MASK_5) < 32
  {
  }

  /** Registers other than these, and the unlock registers, still hold what they held. */
  predicate Untouched(was: seq<bv8>, now: seq<bv8>, except: set<nat>) {
    |was| == |now| && forall a :: 0 <= a < |was| && a !in except && !IsUnlock(a) ==> now[a] == was[a]
  }

  lemma NothingTouched(regs: seq<bv8>, except: set<nat>)
    ensures Untouched(regs, regs, except)
  {
  }

  /** The battery's two limits have not moved. */
  predicate KeepsLimits(was: seq<bv8>, now: seq<bv8>)
    requires |was| == REG_COUNT && |now| == REG_COUNT
  {
    now[FCC_CFG] == was[FCC_CFG] && now[FV_CFG] == was[FV_CFG]
  }

  predicate Suspended(regs: seq<bv8>)
    requires |regs| == REG_COUNT
  {
    regs[0x340] & 0x10 != 0
  }

  /** Only the bits of a mask have moved. */
  predicate OnlyBits(was: bv8, now: bv8, mask: bv8) {
    now & !mask == was & !mask
  }

  lemma MergeTouchesMask(reg: bv8, mask: bv8, val: bv8)
    ensures OnlyBits(reg, Merge(reg, mask, val), mask)
  {
  }

  lemma NothingMoved()
    ensures forall reg: bv8, mask: bv8 :: OnlyBits(reg, reg, mask)
  {
  }

  lemma OnlyBitsChains(a: bv8, b: bv8, c: bv8, m: bv8, n: bv8)
    requires OnlyBits(a, b, m) && OnlyBits(b, c, n)
    ensures OnlyBits(a, c, m | n)
  {
  }

  /** How charging starts, stops and starts again. */
  predicate ChargingConfigured(regs: seq<bv8>)
    requires |regs| == REG_COUNT
  {
    && regs[0x0fb] & 0x06 == 0x06     // recharge and termination read the fuel gauge
    && regs[0x0fc] & 0xad == 0x01     // inhibit on; recharge, termination and fast charge automatic
    && regs[0x0ff] & 0x01 == 0        // recharge 100 mV below
  }

  /** The charge path obeys commands, ports are detected, and the search reruns. */
  predicate UsbConfigured(regs: seq<bv8>)
    requires |regs| == REG_COUNT
  {
    regs[0x3f4] & 0x06 == 0 && regs[0x3f5] & 0x01 == 0x01 && regs[0x6f5] & 0x30 == 0x20
  }

  /** Steps of the initialisation that write other registers leave each part as it was. */
  lemma PartsStay(was: seq<bv8>, now: seq<bv8>, except: set<nat>)
    requires |was| == REG_COUNT && Untouched(was, now, except)
    ensures 0x0fb !in except && 0x0fc !in except && 0x0ff !in except ==>
              ChargingConfigured(now) == ChargingConfigured(was)
    ensures 0x0f9 !in except ==> now[0x0f9] == was[0x0f9]
    ensures 0x242 !in except ==> now[0x242] == was[0x242]
    ensures 0x3f4 !in except && 0x3f5 !in except && 0x6f5 !in except ==> UsbConfigured(now) == UsbConfigured(was)
    ensures 0x340 !in except && 0x3f2 !in except && 0x3f3 !in except ==>
              now[0x340] == was[0x340] && now[0x3f2] == was[0x3f2] && now[0x3f3] == was[0x3f3]
  {
  }

  /** A successful initialisation: both halves configured, charging enabled, and the input limit
      left as it was unless a charging port is there. */
  predicate Started(was: seq<bv8>, now: seq<bv8>, termIndex: nat, hasTerm: bool, fastPort: bool)
    requires |was| == REG_COUNT && |now| == REG_COUNT
  {
    && ChargingConfigured(now) && UsbConfigured(now) && now[0x242] & 0x02 == 0
    && (hasTerm ==> Index(now[0x0f9], 0x07) == termIndex)
    && (!fastPort ==> now[0x340] == was[0x340] && now[0x3f2] == was[0x3f2] && now[0x3f3] == was[0x3f3])
  }

  lemma PartsMakeStart(was: seq<bv8>, charging: seq<bv8>, configured: seq<bv8>, programmed: seq<bv8>,
                       enabled: seq<bv8>, usb: seq<bv8>, now: seq<bv8>, termIndex: nat, hasTerm: bool, fastPort: bool)
    requires |was| == |charging| == |configured| == |programmed| == |enabled| == |usb| == |now| == REG_COUNT
    requires Untouched(was, charging, {CHGR_CFG1, CHGR_CFG2, CHGR_CFG}) && ChargingConfigured(charging)
    requires Untouched(charging, configured, {TCC_CFG})
    requires hasTerm ==> Index(configured[0x0f9], 0x07) == termIndex
    requires Untouched(configured, programmed, {0x0f2, 0x0f4})
    requires Untouched(programmed, enabled, {0x242}) && enabled[0x242] & 0x02 == 0
    requires Untouched(enabled, usb, {USB_CFG, APSD_CFG, TRIM_OPT}) && UsbConfigured(usb)
    requires Untouched(usb, now, {IL_CFG, CMD_IL, AICL_CFG}) && (!fastPort ==> now == usb)
    ensures Started(was, now, termIndex, hasTerm, fastPort)
  {
    hide Untouched, ChargingConfigured, UsbConfigured, Index;
    PartsStay(was, charging, {CHGR_CFG1, CHGR_CFG2, CHGR_CFG});
    PartsStay(charging, configured, {TCC_CFG});
    PartsStay(configured, programmed, {0x0f2, 0x0f4});
    PartsStay(programmed, enabled, {0x242});
    PartsStay(enabled, usb, {USB_CFG, APSD_CFG, TRIM_OPT});
    PartsStay(usb, now, {IL_CFG, CMD_IL, AICL_CFG});
  }

  /** The input limit the hardware is programmed for. */
  function InputLimit(regs: seq<bv8>, table: seq<int>): int
    requires |regs| == REG_COUNT && |table| == 32
  {
    var cmd := regs[0x340];
    if cmd & 0x01 == 0 then
      if cmd & 0x02 == 0 then (if regs[0x3f4] & 0x80 == 0 then 100000 else 150000)
      else if regs[0x3f4] & 0x80 == 0 then 500000
      else 900000
    else
      IndexInRange(regs[0x3f2]);
      IndexInRange(regs[0x307]);
      if cmd & 0x04 != 0 then table[Index(regs[0x3f2], 0x1f)] else table[Index(regs[0x307], 0x1f)]
  }

  /** The two selector bits and the mode bit spell low-current option `i`. */
  predicate SpellsOption(cfg: bv8, cmd: bv8, i: nat) {
    && i < 4
    && (cfg & USB3_BIT != 0 <==> i % 2 == 1)
    && (cmd & USB51_BIT != 0 <==> i / 2 == 1)
    && cmd & HC_BIT == 0
  }

  lemma OptionReadsBack(regs: seq<bv8>, table: seq<int>, i: nat)
    requires |regs| == REG_COUNT && |table| == 32 && SpellsOption(regs[USB_CFG], regs[CMD_IL], i)
    ensures InputLimit(regs, table) == LC_OPTIONS[i]
  {
  }

  lemma OverriddenReadsBack(regs: seq<bv8>, table: seq<int>, i: nat)
    requires |regs| == REG_COUNT && |table| == 32 && Index(regs[IL_CFG], MASK_5) == i
    requires regs[CMD_IL] & (HC_BIT | OVERRIDE_BIT) == HC_BIT | OVERRIDE_BIT
    ensures i < 32 && InputLimit(regs, table) == table[i]
  {
    IndexInRange(regs[IL_CFG]);
    assert regs[CMD_IL] & HC_BIT != 0 && regs[CMD_IL] & OVERRIDE_BIT != 0;
  }

  lemma OptionsAscend()
    ensures Ascending(LC_OPTIONS)
  {
  }

  function UsbSelect(usb3: bool): bv8 {
    if usb3 then USB3_BIT else 0
  }

  function UsbLevel(full: bool): bv8 {
    if full then USB51_BIT else 0
  }

  lemma OptionSpelled(cfg: bv8, cmd: bv8, i: nat)
    requires i < 4
    ensures SpellsOption(Merge(cfg, USB3_BIT, UsbSelect(i % 2 == 1)),
                         Merge(Merge(cmd, USB51_BIT, UsbLevel(i / 2 == 1)), HC_BIT, 0), i)
  {
  }

  /** The automatic search decides the limit, up to the top of the table. */
  predicate HandedOver(regs: seq<bv8>)
    requires |regs| == REG_COUNT
  {
    && regs[0x340] & 0x01 != 0 && regs[0x340] & 0x04 == 0
    && Index(regs[0x3f2], 0x1f) == 31 && regs[0x3f3] & 0x04 != 0
  }

  lemma SearchDecides(regs: seq<bv8>, table: seq<int>)
    requires |regs| == REG_COUNT && |table| == 32 && HandedOver(regs)
    ensures Index(regs[ICL_STS_1], MASK_5) < 32
    ensures InputLimit(regs, table) == table[Index(regs[ICL_STS_1], MASK_5)]
  {
    IndexInRange(regs[ICL_STS_1]);
  }

  lemma OldModeKept(regs: seq<bv8>, table: seq<int>)
    requires |regs| == REG_COUNT && |table| == 32
    ensures regs[CMD_IL] & HC_BIT == 0 ==>
              var now := regs[CMD_IL := Merge(regs[CMD_IL], OVERRIDE_BIT, 0)];
              InputLimit(now, table) == InputLimit(regs, table) && now[CMD_IL] & HC_BIT == 0
  {
  }

  lemma SearchBits(cmd: bv8, aicl: bv8)
    ensures Merge(Merge(cmd, OVERRIDE_BIT, 0), HC_BIT, HC_BIT) & HC_BIT != 0
    ensures Merge(Merge(cmd, OVERRIDE_BIT, 0), HC_BIT, HC_BIT) & OVERRIDE_BIT == 0
    ensures Merge(aicl, AICL_BIT, AICL_BIT) & AICL_BIT != 0
  {
  }

  /** The limit the hardware is programmed for stays, and so does a handover to the search. */
  predicate SameLimit(was: seq<bv8>, now: seq<bv8>, table: seq<int>)
    requires |was| == REG_COUNT && |now| == REG_COUNT && |table| == 32
  {
    InputLimit(now, table) == InputLimit(was, table) && (HandedOver(was) ==> HandedOver(now))
  }

  lemma LimitElsewhere(was: seq<bv8>, now: seq<bv8>, table: seq<int>)
    requires |was| == REG_COUNT && |now| == REG_COUNT && |table| == 32 && Untouched(was, now, {0x0f2})
    ensures SameLimit(was, now, table) && Suspended(now) == Suspended(was)
  {
  }

  lemma LimitBesidePath(was: seq<bv8>, now: seq<bv8>, table: seq<int>)
    requires |was| == REG_COUNT && |now| == REG_COUNT && |table| == 32 && Untouched(was, now, {0x340})
    requires OnlyBits(was[0x340], now[0x340], 0x10)
    ensures SameLimit(was, now, table)
  {
    SameBits(was[0x340], now[0x340]);
  }

  lemma SameBits(a: bv8, b: bv8)
    requires OnlyBits(a, b, 0x10)
    ensures a & 0x01 == b & 0x01 && a & 0x02 == b & 0x02 && a & 0x04 == b & 0x04
  {
  }

  // ---------------------------------------------------------------- the bus

  /** The result of the next access. */
  function First(bus: seq<int>): int {
    if bus == [] then 0 else bus[0]
  }

  function Rest(bus: seq<int>): seq<int> {
    if bus == [] then [] else bus[1..]
  }

  /** How an update of one register turns out: it reads, and writes only what it changes. */
  function UpdateResult(bus: seq<int>, reg: bv8, mask: bv8, val: bv8): int {
    if First(bus) != 0 || Merge(reg, mask, val) == reg then First(bus) else First(Rest(bus))
  }

  function AfterUpdate(bus: seq<int>, reg: bv8, mask: bv8, val: bv8): seq<int> {
    if First(bus) != 0 || Merge(reg, mask, val) == reg then Rest(bus) else Rest(Rest(bus))
  }

  datatype Property = Online | FastChargeCurrent | InputCurrentLimit | Unsupported

  /** What reaches the driver once it is initialised: a property write, or a charging port found
      by source detection. */
  datatype Event = Set(property: Property, value: int) | FastPort

  /** What an event may decide: whether the charge path is on, the input limit, or the
      fast-charge current. */
  datatype Concern = Path | Limit | Charge

  /** On a working bus: a request decides the current if the battery and the table allow it, and the
      limit unless it suspends the path instead. */
  predicate Decides(c: Concern, e: Event, least: int, most: int) {
    match c
    case Path => e.FastPort? || e.property.Online? || e.property.InputCurrentLimit?
    case Limit => e.FastPort? || (e.property.InputCurrentLimit? && e.value >= 100000)
    case Charge => e.Set? && e.property.FastChargeCurrent? && least <= e.value <= most
  }

  predicate SwitchesOff(e: Event) {
    && e.Set?
    && ((e.property.Online? && e.value == 0) || (e.property.InputCurrentLimit? && e.value < 100000))
  }

  /** The i-th event is the last to decide a matter; none is if i is -1. */
  ghost predicate LastOf(c: Concern, events: seq<Event>, least: int, most: int, i: int) {
    && -1 <= i < |events| && (i >= 0 ==> Decides(c, events[i], least, most))
    && forall j :: i < j < |events| ==> !Decides(c, events[j], least, most)
  }

  /** One more event either decides the matter or leaves it where it was. */
  lemma LastOfGrows(c: Concern, events: seq<Event>, k: nat, most: int, i: int)
    requires k < |events| && LastOf(c, events[..k], 300000, most, i)
    ensures LastOf(c, events[..k + 1], 300000, most, if Decides(c, events[k], 300000, most) then k else i)
  {
  }

  lemma LastOfUnique(c: Concern, events: seq<Event>, most: int, i: int)
    requires LastOf(c, events, 300000, most, i)
    ensures forall k :: LastOf(c, events, 300000, most, k) ==> k == i
  {
  }

  lemma LastOfNone(most: int)
    ensures forall c :: LastOf(c, [], 300000, most, -1)
  {
  }

  /** The input limit as event `i` left it, or as it was if there is none. */
  ghost predicate LimitFrom(was: seq<bv8>, now: seq<bv8>, table: seq<int>, events: seq<Event>, i: int)
    requires |was| == REG_COUNT && |now| == REG_COUNT && |table| == 32
  {
    if !(0 <= i < |events|) then SameLimit(was, now, table)
    else if events[i].FastPort? then HandedOver(now)
    else IsBest([100000, 150000, 500000, 900000], table, events[i].value, InputLimit(now, table))
  }

  lemma LimitFromNone(regs: seq<bv8>, table: seq<int>, events: seq<Event>)
    requires |regs| == REG_COUNT && |table| == 32
    ensures LimitFrom(regs, regs, table, events, -1)
  {
  }

  lemma LimitFromGrows(first: seq<bv8>, was: seq<bv8>, now: seq<bv8>, table: seq<int>, events: seq<Event>,
                       i: int, k: nat)
    requires |first| == REG_COUNT && |was| == REG_COUNT && |now| == REG_COUNT && |table| == 32
    requires LimitFrom(first, was, table, events, i) && k < |events|
    ensures LimitFrom(was, now, table, [events[k]], -1) ==> LimitFrom(first, now, table, events, i)
    ensures LimitFrom(was, now, table, [events[k]], 0) ==> LimitFrom(first, now, table, events, k)
  {
    hide InputLimit, IsBest, HandedOver;
  }

  /** What an event does on a working bus, and what it leaves alone. */
  ghost predicate EventDone(e: Event, most: int, was: seq<bv8>, now: seq<bv8>, table: seq<int>,
                            wasAccepted: int, nowAccepted: int)
    requires |was| == REG_COUNT && |now| == REG_COUNT && |table| == 32
  {
    match e
    case FastPort => HandedOver(now) && !Suspended(now) && nowAccepted == wasAccepted
    case Set(Online, value) =>
      Suspended(now) == (value == 0) && SameLimit(was, now, table) && nowAccepted == wasAccepted
    case Set(InputCurrentLimit, value) =>
      && nowAccepted == wasAccepted && Suspended(now) == (value < 100000)
      && (value < 100000 ==> SameLimit(was, now, table))
      && (value >= 100000 ==> IsBest([100000, 150000, 500000, 900000], table, value, InputLimit(now, table)))
    case Set(FastChargeCurrent, value) =>
      && Suspended(now) == Suspended(was) && SameLimit(was, now, table)
      && nowAccepted == if 300000 <= value <= most then value else wasAccepted
    case Set(Unsupported, _) => now == was && nowAccepted == wasAccepted
  }

  lemma EventDecides(e: Event, most: int, was: seq<bv8>, now: seq<bv8>, table: seq<int>,
                     wasAccepted: int, nowAccepted: int)
    requires |was| == REG_COUNT && |now| == REG_COUNT && |table| == 32
    requires EventDone(e, most, was, now, table, wasAccepted, nowAccepted)
    ensures Suspended(now) == if Decides(Path, e, 300000, most) then SwitchesOff(e) else Suspended(was)
    ensures Decides(Charge, e, 300000, most) ==> e.Set? && nowAccepted == e.value
    ensures !Decides(Charge, e, 300000, most) ==> nowAccepted == wasAccepted
    ensures LimitFrom(was, now, table, [e], if Decides(Limit, e, 300000, most) then 0 else -1)
  {
    hide InputLimit, IsBest;
  }

  /** The path, the input limit and the fast-charge current are each as the last event that
      decides them left them, or as they were if there is none. */
  ghost predicate LastDecisionsStand(events: seq<Event>, most: int, was: seq<bv8>, now: seq<bv8>, table: seq<int>,
                                     wasAccepted: int, nowAccepted: int)
    requires |was| == REG_COUNT && |now| == REG_COUNT && |table| == 32
  {
    && (forall i :: LastOf(Path, events, 300000, most, i) ==>
          Suspended(now) == if i < 0 then Suspended(was) else SwitchesOff(events[i]))
    && (forall i :: LastOf(Limit, events, 300000, most, i) ==> LimitFrom(was, now, table, events, i))
    && (forall i :: LastOf(Charge, events, 300000, most, i) ==>
          nowAccepted == if i < 0 then wasAccepted else events[i].value)
  }

  lemma DecisionsStand(events: seq<Event>, most: int, was: seq<bv8>, now: seq<bv8>, table: seq<int>,
                       wasAccepted: int, nowAccepted: int, path: int, limit: int, charge: int)
    requires |was| == REG_COUNT && |now| == REG_COUNT && |table| == 32
    requires LastOf(Path, events, 300000, most, path) && LastOf(Limit, events, 300000, most, limit)
    requires Suspended(now) == if path < 0 then Suspended(was) else SwitchesOff(events[path])
    requires LimitFrom(was, now, table, events, limit)
    requires LastOf(Charge, events, 300000, most, charge)
    requires nowAccepted == if charge < 0 then wasAccepted else events[charge].value
    ensures LastDecisionsStand(events, most, was, now, table, wasAccepted, nowAccepted)
  {
    hide LimitFrom, Suspended, SwitchesOff;
    LastOfUnique(Path, events, most, path);
    LastOfUnique(Limit, events, most, limit);
    LastOfUnique(Charge, events, most, charge);
  }

  class Chip {
    const table: seq<int>
    const maxCurrent: int     // the battery's constant_charge_current_max_ua
    const maxVoltage: int     // the battery's voltage_max_design_uv
    var regs: seq<bv8>
    /** Results of the bus accesses still to come; once they run out the bus works. */
    var bus: seq<int>
    /** The current last accepted for fast charging. */
    ghost var accepted: int

    constructor (table: seq<int>, maxCurrent: int, maxVoltage: int, regs: seq<bv8>, bus: seq<int>)
      requires IsIlimTable(table) && |regs| == REG_COUNT && forall k :: 0 <= k < |bus| ==> bus[k] <= 0
      ensures Valid() && this.table == table && this.regs == regs && this.bus == bus
      ensures this.maxCurrent == maxCurrent && this.maxVoltage == maxVoltage
    {
      this.table, this.maxCurrent, this.maxVoltage := table, maxCurrent, maxVoltage;
      this.regs, this.bus, this.accepted := regs, bus, 0;
    }

    ghost predicate Valid()
      reads this
    {
      IsIlimTable(table) && |regs| == REG_COUNT && forall k :: 0 <= k < |bus| ==> bus[k] <= 0
    }

    ghost predicate Healthy()
      reads this
    {
      bus == []
    }

    /** The battery's limits as the hardware holds them: the best the table offers for the current
        last accepted, which the battery allows, and for the design voltage. */
    ghost predicate Programmed()
      requires Valid()
      reads this
    {
      && accepted <= maxCurrent
      && IsFloor(table, accepted, Index(regs[0x0f2], 0x1f))
      && IsFloor(FV_TABLE, maxVoltage, Index(regs[0x0f4], 0x3f) - 5)
    }

    lemma LimitsHold()
      requires Valid() && Programmed()
      ensures Index(regs[FCC_CFG], MASK_5) < |table| && table[Index(regs[FCC_CFG], MASK_5)] <= maxCurrent
      ensures 0 <= Index(regs[FV_CFG], MASK_6) - 5 < |FV_TABLE|
      ensures FV_TABLE[Index(regs[FV_CFG], MASK_6) - 5] <= maxVoltage
    {
    }

    method Access() returns (rc: int)
      requires Valid()
      modifies `bus
      ensures Valid() && rc <= 0
      ensures rc == First(old(bus)) && bus == Rest(old(bus))
    {
      if bus == [] { return 0; }
      rc, bus := bus[0], bus[1..];
    }

    method Read(addr: nat) returns (rc: int, v: bv8)
      requires Valid() && addr < REG_COUNT
      modifies `bus
      ensures Valid() && rc <= 0 && (rc == 0 ==> v == regs[addr])
      ensures rc == First(old(bus)) && bus == Rest(old(bus))
    {
      v := 0;
      rc := Access();
      if rc == 0 {
        v := regs[addr];
      }
    }

    method WriteReg(addr: nat, v: bv8) returns (rc: int)
      requires Valid() && addr < REG_COUNT
      modifies `bus, `regs
      ensures Valid() && rc <= 0
      ensures regs == if rc == 0 then old(regs)[addr := v] else old(regs)
      ensures rc == First(old(bus)) && bus == Rest(old(bus))
    {
      rc := Access();
      if rc == 0 {
        regs := regs[addr := v];
      }
    }

    method UpdateBits(addr: nat, mask: bv8, val: bv8) returns (rc: int)
      requires Valid() && addr < REG_COUNT
      modifies `bus, `regs
      ensures Valid() && rc <= 0
      ensures regs == if rc == 0 then old(regs)[addr := Merge(old(regs)[addr], mask, val)] else old(regs)
      ensures rc == UpdateResult(old(bus), old(regs)[addr], mask, val)
      ensures bus == AfterUpdate(old(bus), old(regs)[addr], mask, val)
      ensures OnlyBits(old(regs)[addr], regs[addr], mask)
      ensures old(Healthy()) ==> rc == 0 && Healthy()
    {
      MergeTouchesMask(regs[addr], mask, val);
      hide OnlyBits;
      var reg: bv8;
      rc, reg := Read(addr);
      if rc != 0 { return; }
      if Merge(reg, mask, val) != reg {
        rc := WriteReg(addr, Merge(reg, mask, val));
      }
    }

    method SecMaskedWrite(addr: nat, mask: bv8, val: bv8) returns (rc: int)
      requires Valid() && addr < REG_COUNT && !IsUnlock(addr)
      modifies `bus, `regs
      ensures Valid() && rc <= 0
      ensures regs[addr] == if rc == 0 then Merge(old(regs)[addr], mask, val) else old(regs)[addr]
      ensures Untouched(old(regs), regs, {addr})
      // the peripheral is unlocked first, whether or not the write then works
      ensures First(old(bus)) == First(Rest(old(bus))) == 0 ==> regs[addr - addr % 0x100 + 0xd0] == 0xa5
      ensures rc == 0 <==> First(old(bus)) == First(Rest(old(bus))) == First(Rest(Rest(old(bus)))) == 0
      ensures OnlyBits(old(regs)[addr], regs[addr], mask)
      ensures old(Healthy()) ==> rc == 0 && Healthy()
    {
      MergeTouchesMask(regs[addr], mask, val);
      hide Merge, OnlyBits;
      var reg: bv8;
      rc, reg := Read(addr);
      if rc != 0 { return; }
      rc := WriteReg(addr - addr % 0x100 + SEC_ACCESS_ADDR, SEC_ACCESS_VALUE);
      if rc != 0 { return; }
      rc := WriteReg(addr, Merge(reg, mask, val));
    }

    /** Enables or suspends the USB charge path; the limit it is programmed for stays. */
    method UsbEnable(enable: bool) returns (rc: int)
      requires Valid()
      modifies `bus, `regs
      ensures Valid() && rc <= 0 && Untouched(old(regs), regs, {CMD_IL})
      ensures InputLimit(regs, table) == InputLimit(old(regs), table)
      ensures Suspended(regs) == if rc == 0 then !enable else Suspended(old(regs))
      ensures OnlyBits(old(regs)[0x340], regs[0x340], 0x10)
      ensures old(Healthy()) ==> rc == 0 && Healthy()
    {
      var val := if enable then 0 else SUSPEND_BIT;
      MergeReadsBack(regs[CMD_IL], SUSPEND_BIT, val);
      rc := UpdateBits(CMD_IL, SUSPEND_BIT, val);
    }

    method GetInputLimit() returns (r: int)
      requires Valid()
      modifies `bus
      ensures Valid() && (r >= 0 ==> r == InputLimit(regs, table))
      ensures old(Healthy()) ==> r == InputLimit(regs, table) && Healthy()
    {
      var value: bv8;
      r, value := Read(CMD_IL);
      if r != 0 { return; }
      if value & HC_BIT == 0 {
        r, value := Read(USB_CFG);
        if r != 0 { return; }
        var usb3 := if value & USB3_BIT != 0 then 1 else 0;
        r, value := Read(CMD_IL);
        if r != 0 { return; }
        var full := if value & USB51_BIT != 0 then 1 else 0;
        return LC_OPTIONS[usb3 + 2 * full];
      }
      if value & OVERRIDE_BIT != 0 {
        r, value := Read(IL_CFG);
      } else {
        r, value := Read(ICL_STS_1);
      }
      if r != 0 { return; }
      IndexInRange(value);
      return table[Index(value, MASK_5)];
    }

    /** Low-current option `i`: the USB version, the current level, and high-current mode off. */
    method SpellOption(i: nat) returns (rc: int)
      requires Valid() && i < 4
      modifies `bus, `regs
      ensures Valid() && rc <= 0 && Untouched(old(regs), regs, {USB_CFG, CMD_IL})
      ensures OnlyBits(old(regs)[0x3f4], regs[0x3f4], 0x80) && OnlyBits(old(regs)[0x340], regs[0x340], 0x03)
      ensures rc == 0 ==> SpellsOption(regs[0x3f4], regs[0x340], i)
      ensures old(Healthy()) ==> rc == 0 && Healthy()
    {
      hide Merge, SpellsOption, UsbSelect, UsbLevel, UpdateResult, AfterUpdate, OnlyBits, First, Rest;
      NothingMoved();
      var usb3, full := i % 2 == 1, i / 2 == 1;
      OptionSpelled(regs[USB_CFG], regs[CMD_IL], i);
      rc := SecMaskedWrite(USB_CFG, USB3_BIT, UsbSelect(usb3));
      if rc != 0 { return; }
      ghost var cmd := regs[CMD_IL];
      rc := UpdateBits(CMD_IL, USB51_BIT, UsbLevel(full));
      OnlyBitsChains(cmd, regs[CMD_IL], regs[CMD_IL], USB51_BIT, HC_BIT);
      if rc != 0 { return; }
      ghost var level := regs[CMD_IL];
      rc := UpdateBits(CMD_IL, HC_BIT, 0);
      OnlyBitsChains(cmd, level, regs[CMD_IL], USB51_BIT, HC_BIT);
    }

    method SetInputLimitLc(current: int) returns (r: int)
      requires Valid()
      modifies `bus, `regs
      ensures Valid() && r != 0 && Untouched(old(regs), regs, {USB_CFG, CMD_IL})
      ensures OnlyBits(old(regs)[0x3f4], regs[0x3f4], 0x80) && OnlyBits(old(regs)[0x340], regs[0x340], 0x03)
      ensures current < 100000 ==> r == -22 && regs == old(regs)
      ensures r > 0 ==>
                && InputLimit(regs, table) == r
                && exists i :: 0 <= i < 4 && IsFloor(LC_OPTIONS, current, i) && LC_OPTIONS[i] == r
      ensures old(Healthy()) ==> Healthy() && (current >= 100000 ==> r > 0)
    {
      hide InputLimit, SpellsOption, IsFloor, OnlyBits;
      OptionsAscend();
      NothingMoved();
      if current < LC_OPTIONS[0] { return -EINVAL; }
      var i := FindClosestSmaller(current, LC_OPTIONS);
      r := SpellOption(i);
      if r != 0 { return; }
      OptionReadsBack(regs, table, i);
      return LC_OPTIONS[i];
    }

    method SetInputLimitHc(current: int) returns (r: int)
      requires Valid()
      modifies `bus, `regs
      ensures Valid() && r != 0 && Untouched(old(regs), regs, {IL_CFG, CMD_IL, AICL_CFG})
      ensures OnlyBits(old(regs)[0x3f2], regs[0x3f2], 0x1f) && OnlyBits(old(regs)[0x3f3], regs[0x3f3], 0x04)
      ensures OnlyBits(old(regs)[0x340], regs[0x340], 0x05)
      ensures current < 300000 ==> r == -22 && regs == old(regs)
      ensures r > 0 ==>
                InputLimit(regs, table) == r && exists i :: 0 <= i < 32 && IsFloor(table, current, i) && table[i] == r
      ensures old(Healthy()) ==> Healthy() && (current >= 300000 ==> r > 0)
    {
      NothingMoved();
      hide Merge, InputLimit, IsFloor, Index, OnlyBits, UpdateResult, AfterUpdate;
      if current < table[0] { return -EINVAL; }
      var i := FindClosestSmaller(current, table);
      IndexReadsBack(regs[IL_CFG], i);
      r := SecMaskedWrite(IL_CFG, MASK_5, i as bv8);
      if r != 0 { return; }
      MergeReadsBack(regs[CMD_IL], HC_BIT | OVERRIDE_BIT, HC_BIT | OVERRIDE_BIT);
      r := UpdateBits(CMD_IL, HC_BIT | OVERRIDE_BIT, HC_BIT | OVERRIDE_BIT);
      if r != 0 { return; }
      OverriddenReadsBack(regs, table, i);
      // Leaving the automatic limiting on does no harm once it is overridden.
      var ignored := SecMaskedWrite(AICL_CFG, AICL_BIT, 0);
      OverriddenReadsBack(regs, table, i);
      return table[i];
    }

    /** Below the smallest option the path is suspended. From there up, the request is met by the
        largest limit not above it that either mode offers, the path is enabled, and the hardware
        reads back that very limit. */
    method SetInputLimit(current: int) returns (r: int)
      requires Valid()
      modifies `bus, `regs
      ensures Valid() && Untouched(old(regs), regs, {USB_CFG, IL_CFG, CMD_IL, AICL_CFG})
      ensures current < 100000 ==> r <= 0 && InputLimit(regs, table) == InputLimit(old(regs), table)
      ensures current < 100000 ==> Untouched(old(regs), regs, {0x340}) && OnlyBits(old(regs)[0x340], regs[0x340], 0x10)
      ensures current < 100000 && r == 0 ==> Suspended(regs)
      ensures r > 0 ==> IsBest([100000, 150000, 500000, 900000], table, current, r) && InputLimit(regs, table) == r
      ensures current >= 100000 ==> r != 0
      ensures old(Healthy()) ==> Healthy()
      ensures old(Healthy()) && current < 100000 ==> r == 0
      ensures old(Healthy()) && current >= 100000 ==> r > 0 && !Suspended(regs)
    {
      hide InputLimit, IsFloor, IsBest, OnlyBits;
      if current < LC_OPTIONS[0] {
        r := UsbEnable(false);
        return;
      }
      var k, exact := 0, false;
      while k < |LC_OPTIONS|
        invariant 0 <= k <= |LC_OPTIONS|
        invariant exact <==> exists j :: 0 <= j < k && LC_OPTIONS[j] == current
        invariant exact ==> k == |LC_OPTIONS|
        invariant regs == old(regs) && bus == old(bus)
      {
        if current == LC_OPTIONS[k] {
          exact, k := true, |LC_OPTIONS|;
        } else {
          k := k + 1;
        }
      }
      if exact || current < table[0] {
        r := SetInputLimitLc(current);
        if r > 0 {
          ghost var i :| 0 <= i < 4 && IsFloor(LC_OPTIONS, current, i) && LC_OPTIONS[i] == r;
          BestOfBothModes(table, current, i);
        }
      } else {
        r := SetInputLimitHc(current);
        if r > 0 {
          ghost var i :| 0 <= i < 32 && IsFloor(table, current, i) && table[i] == r;
          BestOfBothModes(table, current, i);
        }
      }
      if r > 0 {
        var ignored := UsbEnable(true);
      }
    }

    /** What was set is what is then reported. */
    method SetThenGet(current: int) returns (granted: int, reported: int)
      requires Valid() && Healthy() && current >= 100000
      modifies `bus, `regs
      ensures Valid() && granted == reported && IsBest(LC_OPTIONS, table, current, reported) && !Suspended(regs)
    {
      granted := SetInputLimit(current);
      reported := GetInputLimit();
    }

    /** Whether the second update of the mode register works once the first one has. */
    predicate SwitchWorks()
      requires Valid()
      reads this
    {
      var cmd := regs[CMD_IL];
      UpdateResult(AfterUpdate(bus, cmd, OVERRIDE_BIT, 0), Merge(cmd, OVERRIDE_BIT, 0), HC_BIT, HC_BIT) == 0
    }

    /** ... and what is left of the bus after both. */
    function BusAfterSwitch(): seq<int>
      requires Valid()
      reads this
    {
      var cmd := regs[CMD_IL];
      AfterUpdate(AfterUpdate(bus, cmd, OVERRIDE_BIT, 0), Merge(cmd, OVERRIDE_BIT, 0), HC_BIT, HC_BIT)
    }

    /** Hands the input limit to the automatic search. A failed switch to high-current mode is
        reported as success, and nothing after it is done: the handover is complete exactly if the
        call reports success and that switch worked. */
    method AiclEnable() returns (rc: int)
      requires Valid()
      modifies `bus, `regs
      ensures Valid() && rc <= 0 && Untouched(old(regs), regs, {IL_CFG, CMD_IL, AICL_CFG})
      ensures rc == 0 && old(SwitchWorks()) ==> HandedOver(regs)
      ensures rc == 0 && !old(SwitchWorks()) ==>
                regs == old(regs)[CMD_IL := Merge(old(regs)[CMD_IL], OVERRIDE_BIT, 0)] && bus == old(BusAfterSwitch())
      ensures !old(SwitchWorks()) ==> (rc == 0 <==> UpdateResult(old(bus), old(regs)[CMD_IL], OVERRIDE_BIT, 0) == 0)
      ensures !old(SwitchWorks()) ==> regs[IL_CFG] == old(regs)[IL_CFG] && regs[AICL_CFG] == old(regs)[AICL_CFG]
      ensures old(regs)[AICL_CFG] & AICL_BIT == 0 ==>
                (HandedOver(regs) <==> rc == 0 && old(SwitchWorks()))
      ensures old(Healthy()) ==> rc == 0 && old(SwitchWorks()) && Healthy()
    {
      hide Merge, InputLimit, Index;
      SearchBits(regs[CMD_IL], regs[AICL_CFG]);
      rc := UpdateBits(CMD_IL, OVERRIDE_BIT, 0);
      if rc != 0 { return; }
      rc := UpdateBits(CMD_IL, HC_BIT, HC_BIT);
      if rc != 0 { return IRQ_NONE; }
      IndexReadsBack(regs[IL_CFG], |table| - 1);
      rc := SecMaskedWrite(IL_CFG, MASK_5, (|table| - 1) as bv8);
      if rc != 0 { return; }
      rc := SecMaskedWrite(AICL_CFG, AICL_BIT, AICL_BIT);
    }

    /** Programs the largest fast-charge current not above the request, or nothing. */
    method SetFastCharge(current: int) returns (r: int)
      requires Valid()
      modifies `bus, `regs, `accepted
      ensures Valid() && r != 0 && Untouched(old(regs), regs, {0x0f2})
      ensures OnlyBits(old(regs)[0x0f2], regs[0x0f2], 0x1f) && regs[0x0f4] == old(regs)[0x0f4]
      ensures current < 300000 ==> r == -22 && regs == old(regs)
      ensures r <= 0 ==> accepted == old(accepted) && regs[0x0f2] == old(regs)[0x0f2]
      ensures r > 0 ==> accepted == current && IsFloor(table, current, Index(regs[0x0f2], 0x1f))
      ensures r > 0 ==> r == table[Index(regs[0x0f2], 0x1f)]
      ensures old(Healthy()) ==> Healthy() && (r > 0 <==> current >= 300000)
    {
      if current < table[0] { return -EINVAL; }
      var i := FindClosestSmaller(current, table);
      IndexReadsBack(regs[FCC_CFG], i);
      r := SecMaskedWrite(FCC_CFG, MASK_5, i as bv8);
      if r != 0 { return; }
      accepted := current;
      return table[i];
    }

    /** Programs the largest float voltage not above the request, or nothing. */
    method SetFloatVoltage(voltage: int) returns (r: int)
      requires Valid()
      modifies `bus, `regs
      ensures Valid() && r != 0 && Untouched(old(regs), regs, {0x0f4})
      ensures OnlyBits(old(regs)[0x0f4], regs[0x0f4], 0x3f) && regs[0x0f2] == old(regs)[0x0f2]
      ensures !(3600000 <= voltage <= 4500000) ==> r == -22 && regs == old(regs)
      ensures r > 0 ==> IsFloor(FV_TABLE, voltage, Index(regs[0x0f4], 0x3f) - 5)
      ensures r > 0 ==> r == FV_TABLE[Index(regs[0x0f4], 0x3f) - 5]
      ensures old(Healthy()) ==> Healthy() && (r > 0 <==> 3600000 <= voltage <= 4500000)
    {
      hide Merge, Index;
      FloatVoltagesAscend();
      if voltage < FV_TABLE[0] || voltage > FV_TABLE[|FV_TABLE| - 1] { return -EINVAL; }
      var i := FindClosestSmaller(voltage, FV_TABLE);
      VoltageReadsBack(regs[FV_CFG], 5 + i);
      r := SecMaskedWrite(FV_CFG, MASK_6, (5 + i) as bv8);
      if r != 0 { return; }
      return FV_TABLE[i];
    }

    ghost predicate InitAccepts()
      requires Valid()
      reads this
    {
      300000 <= maxCurrent && 3600000 <= maxVoltage <= 4500000
    }

    /** Recharge and termination follow the fuel gauge; charging is inhibited when full, recharges at
        100 mV below and ends at the termination current, without waiting for a pin or a command. */
    method ConfigureCharging() returns (rc: int)
      requires Valid()
      modifies `bus, `regs
      ensures Valid() && rc <= 0 && Untouched(old(regs), regs, {CHGR_CFG1, CHGR_CFG2, CHGR_CFG})
      ensures KeepsLimits(old(regs), regs) && (rc == 0 ==> ChargingConfigured(regs))
      ensures OnlyBits(old(regs)[0x0fb], regs[0x0fb], 0x06) && OnlyBits(old(regs)[0x0fc], regs[0x0fc], 0xad)
      ensures OnlyBits(old(regs)[0x0ff], regs[0x0ff], 0x01)
      ensures old(Healthy()) ==> rc == 0 && Healthy()
    {
      MergeReadsBack(regs[CHGR_CFG1], 0x06, 0x06);
      MergeReadsBack(regs[CHGR_CFG2], 0xad, 0x01);
      MergeReadsBack(regs[CHGR_CFG], 0x01, 0x00);
      NothingMoved();
      hide Merge, OnlyBits, First, Rest;
      rc := SecMaskedWrite(CHGR_CFG1, 0x06, 0x06);
      if rc != 0 { return; }
      rc := SecMaskedWrite(CHGR_CFG2, 0xad, 0x01);
      if rc != 0 { return; }
      rc := SecMaskedWrite(CHGR_CFG, 0x01, 0x00);
    }

    method SetTermIndex(termIndex: nat) returns (rc: int)
      requires Valid() && termIndex < 8
      modifies `bus, `regs
      ensures Valid() && rc <= 0 && Untouched(old(regs), regs, {TCC_CFG}) && KeepsLimits(old(regs), regs)
      ensures OnlyBits(old(regs)[0x0f9], regs[0x0f9], 0x07)
      ensures rc == 0 ==> Index(regs[0x0f9], 0x07) == termIndex
      ensures old(Healthy()) ==> rc == 0 && Healthy()
    {
      TermReadsBack(regs[TCC_CFG], termIndex);
      hide Merge, OnlyBits, First, Rest, Index;
      rc := SecMaskedWrite(TCC_CFG, 0x07, termIndex as bv8);
    }

    method ConfigureUsb() returns (rc: int)
      requires Valid()
      modifies `bus, `regs
      ensures Valid() && rc <= 0 && Untouched(old(regs), regs, {USB_CFG, APSD_CFG, TRIM_OPT})
      ensures KeepsLimits(old(regs), regs)
      ensures rc == 0 ==> UsbConfigured(regs)
      ensures OnlyBits(old(regs)[0x3f4], regs[0x3f4], 0x06) && OnlyBits(old(regs)[0x3f5], regs[0x3f5], 0x01)
      ensures OnlyBits(old(regs)[0x6f5], regs[0x6f5], 0x30)
      ensures old(Healthy()) ==> rc == 0 && Healthy()
    {
      MergeReadsBack(regs[USB_CFG], 0x06, 0x00);
      MergeReadsBack(regs[APSD_CFG], 0x01, 0x01);
      MergeReadsBack(regs[TRIM_OPT], 0x30, 0x20);
      NothingMoved();
      hide Merge, OnlyBits, First, Rest;
      rc := SecMaskedWrite(USB_CFG, 0x06, 0x00);
      if rc != 0 { return; }
      rc := SecMaskedWrite(APSD_CFG, 0x01, 0x01);
      if rc != 0 { return; }
      rc := SecMaskedWrite(TRIM_OPT, 0x30, 0x20);
    }

    /** In low-current mode, the first update works, the switch does not, and then the bus does. */
    predicate LeavesOldMode()
      requires Valid()
      reads this
    {
      && regs[CMD_IL] & HC_BIT == 0 && BusAfterSwitch() == [] && !SwitchWorks()
      && UpdateResult(bus, regs[CMD_IL], OVERRIDE_BIT, 0) == 0
    }

    /** Source detection: a charging port gets the automatic search and the path enabled. Where the
        switch to high-current mode fails, the path is enabled without the search. */
    method SourceDetect(fastPort: bool)
      requires Valid()
      modifies `bus, `regs
      ensures Valid() && Untouched(old(regs), regs, {IL_CFG, CMD_IL, AICL_CFG})
      ensures KeepsLimits(old(regs), regs)
      ensures old(Healthy()) ==> Healthy() && (fastPort ==> !Suspended(regs) && HandedOver(regs))
      ensures old(Healthy()) && fastPort ==> InputLimit(regs, table) == table[Index(regs[ICL_STS_1], MASK_5)]
      ensures fastPort && !old(SwitchWorks()) ==>
                regs[IL_CFG] == old(regs)[IL_CFG] && regs[AICL_CFG] == old(regs)[AICL_CFG]
      ensures !fastPort ==> regs == old(regs)
      ensures fastPort && old(LeavesOldMode()) ==>
                !Suspended(regs) && !HandedOver(regs) && InputLimit(regs, table) == InputLimit(old(regs), table)
    {
      hide InputLimit, Merge, UpdateResult, AfterUpdate;
      if fastPort {
        OldModeKept(regs, table);
        var rc := AiclEnable();
        if HandedOver(regs) {
          SearchDecides(regs, table);
        }
        if rc == 0 {
          rc := UsbEnable(true);
        }
      }
    }

    method ProgramBattery() returns (rc: int)
      requires Valid()
      modifies `bus, `regs, `accepted
      ensures Valid() && rc <= 0 && Untouched(old(regs), regs, {0x0f2, 0x0f4})
      ensures rc == 0 ==> Programmed() && accepted == maxCurrent
      ensures !InitAccepts() ==> rc < 0
      ensures old(Healthy()) ==> Healthy() && (rc == 0 <==> InitAccepts())
    {
      hide IsFloor, Index, OnlyBits;
      rc := SetFastCharge(maxCurrent);
      if rc < 0 { return; }
      rc := SetFloatVoltage(maxVoltage);
      if rc > 0 {
        rc := 0;
      }
    }

    method EnableCharging() returns (rc: int)
      requires Valid()
      modifies `bus, `regs
      ensures Valid() && rc <= 0 && Untouched(old(regs), regs, {0x242})
      ensures rc == 0 ==> regs[0x242] & 0x02 == 0
      ensures KeepsLimits(old(regs), regs)
      ensures OnlyBits(old(regs)[0x242], regs[0x242], 0x02)
      ensures old(Healthy()) ==> rc == 0 && Healthy()
    {
      MergeReadsBack(regs[CMD_CHG], 0x02, 0x00);
      rc := UpdateBits(CMD_CHG, 0x02, 0x00);
    }

    /** After a successful initialisation the battery's limits are programmed; on a working bus it
        succeeds exactly when the tables offer something for this battery. */
    method Init(termIndex: nat, hasTerm: bool, fastPort: bool) returns (rc: int)
      requires Valid() && termIndex < 8
      modifies `bus, `regs, `accepted
      ensures Valid() && rc <= 0
      ensures rc == 0 ==> Programmed() && accepted == maxCurrent
      ensures rc == 0 ==> Started(old(regs), regs, termIndex, hasTerm, fastPort)
      ensures rc == 0 && fastPort && old(Healthy()) ==> HandedOver(regs) && !Suspended(regs)
      ensures !InitAccepts() ==> rc < 0
      ensures old(Healthy()) ==> Healthy() && (rc == 0 <==> InitAccepts())
    {
      hide Merge, IsFloor, InputLimit, Index, OnlyBits, UpdateResult, AfterUpdate, HandedOver, Suspended,
           Untouched, ChargingConfigured, UsbConfigured, Started;
      rc := ConfigureCharging();
      if rc != 0 { return; }
      ghost var charging := regs;
      if hasTerm {
        rc := SetTermIndex(termIndex);
        if rc != 0 { return; }
      } else {
        NothingTouched(regs, {TCC_CFG});
      }
      ghost var configured := regs;
      rc := ProgramBattery();
      if rc != 0 { return; }
      ghost var programmed := regs;
      rc := EnableCharging();
      if rc != 0 { return; }
      ghost var enabled := regs;
      rc := ConfigureUsb();
      if rc != 0 { return; }
      ghost var usb := regs;
      SourceDetect(fastPort);
      PartsMakeStart(old(regs), charging, configured, programmed, enabled, usb, regs, termIndex, hasTerm, fastPort);
    }

    /** No property write takes the programmed limits past the battery's. */
    method SetProperty(property: Property, value: int) returns (r: int)
      requires Valid()
      modifies `bus, `regs, `accepted
      ensures Valid() && (old(Programmed()) ==> Programmed())
      ensures Untouched(old(regs), regs, {FCC_CFG, USB_CFG, IL_CFG, CMD_IL, AICL_CFG})
      ensures regs[FV_CFG] == old(regs)[FV_CFG]
      ensures accepted == if property.FastChargeCurrent? && r > 0 then value else old(accepted)
      ensures property.Online? ==> Untouched(old(regs), regs, {0x340}) && OnlyBits(old(regs)[0x340], regs[0x340], 0x10)
      ensures property.Online? ==> Suspended(regs) == if r == 0 then value == 0 else Suspended(old(regs))
      ensures property.FastChargeCurrent? ==> Untouched(old(regs), regs, {0x0f2})
      ensures property.FastChargeCurrent? && !(300000 <= value <= maxCurrent) ==> r == -22 && regs == old(regs)
      ensures property.FastChargeCurrent? && r > 0 ==> IsFloor(table, value, Index(regs[0x0f2], 0x1f))
      ensures property.FastChargeCurrent? && r > 0 ==> r == table[Index(regs[0x0f2], 0x1f)]
      ensures property.FastChargeCurrent? && r <= 0 ==> regs[0x0f2] == old(regs)[0x0f2]
      ensures property.InputCurrentLimit? ==> r <= 0 && Untouched(old(regs), regs, {0x3f4, 0x3f2, 0x340, 0x3f3})
      ensures property.InputCurrentLimit? && r == 0 && value >= 100000 ==>
                IsBest([100000, 150000, 500000, 900000], table, value, InputLimit(regs, table))
      ensures property.InputCurrentLimit? && r == 0 && value < 100000 ==> Suspended(regs)
      ensures property.InputCurrentLimit? && value < 100000 ==>
                Untouched(old(regs), regs, {0x340}) && OnlyBits(old(regs)[0x340], regs[0x340], 0x10)
      ensures property.Unsupported? ==> r == -22 && regs == old(regs)
      ensures old(Healthy()) ==> Healthy()
      ensures old(Healthy()) && property.FastChargeCurrent? ==> (r > 0 <==> 300000 <= value <= maxCurrent)
      ensures old(Healthy()) && (property.Online? || property.InputCurrentLimit?) ==> r == 0
      ensures old(Healthy()) && property.InputCurrentLimit? && value >= 100000 ==> !Suspended(regs)
    {
      hide IsFloor, InputLimit, IsBest, Suspended, OnlyBits;
      match property {
        case Online =>
          r := UsbEnable(value != 0);
        case FastChargeCurrent =>
          if value > maxCurrent { return -EINVAL; }
          r := SetFastCharge(value);
        case InputCurrentLimit =>
          r := SetInputLimit(value);
          if r > 0 {
            r := 0;
          }
        case Unsupported =>
          return -EINVAL;
      }
    }

    /** One event. On a working bus a charging port gets the search and the path, a request for an
        input limit gets the best of both modes and the path or suspends it, and what an event is
        not about stays. */
    method Handle(e: Event)
      requires Valid() && Programmed()
      modifies `bus, `regs, `accepted
      ensures Valid() && Programmed() && regs[0x0f4] == old(regs)[0x0f4] && (old(Healthy()) ==> Healthy())
      ensures old(Healthy()) ==> EventDone(e, maxCurrent, old(regs), regs, table, old(accepted), accepted)
      ensures e.Set? && e.property.Unsupported? ==> regs == old(regs) && accepted == old(accepted)
    {
      hide InputLimit, IsBest, HandedOver, Index, IsFloor, OnlyBits, Untouched, SwitchWorks;
      match e {
        case Set(property, value) =>
          var ignored := SetProperty(property, value);
          if property.FastChargeCurrent? {
            LimitElsewhere(old(regs), regs, table);
          } else if property.Online? || (property.InputCurrentLimit? && value < 100000) {
            LimitBesidePath(old(regs), regs, table);
          }
        case FastPort =>
          SourceDetect(true);
      }
    }

    /** Whatever happens after initialisation, and wherever the bus fails, the programmed current
        stays the best one for a request the battery allows. On a working bus, the path, the input
        limit and the current are each as the last event that decides them left them. */
    method Run(events: seq<Event>)
      requires Valid() && Programmed()
      modifies `bus, `regs, `accepted
      ensures Valid() && Programmed() && regs[0x0f4] == old(regs)[0x0f4]
      ensures table[Index(regs[0x0f2], 0x1f)] <= maxCurrent
      ensures FV_TABLE[Index(regs[0x0f4], 0x3f) - 5] <= maxVoltage
      ensures old(Healthy()) ==>
                LastDecisionsStand(events, maxCurrent, old(regs), regs, table, old(accepted), accepted)
    {
      hide Untouched, InputLimit, IsBest, Suspended, Index, IsFloor, HandedOver, LastOf, LimitFrom, SameLimit, OnlyBits;
      hide KeepsLimits, UpdateResult, AfterUpdate, First, Rest, Decides, SwitchesOff, LastDecisionsStand;
      hide EventDone, Programmed;
      ghost var most := maxCurrent;
      ghost var path, limit, charge := -1, -1, -1;
      LastOfNone(most);
      LimitFromNone(regs, table, events);
      assert events[..0] == [];
      var k := 0;
      while k < |events|
        invariant 0 <= k <= |events|
        invariant Valid() && Programmed() && regs[0x0f4] == old(regs)[0x0f4]
        invariant old(Healthy()) ==> Healthy()
        invariant -1 <= path < k && -1 <= limit < k && -1 <= charge < k
        invariant LastOf(Path, events[..k], 300000, most, path)
        invariant LastOf(Limit, events[..k], 300000, most, limit)
        invariant LastOf(Charge, events[..k], 300000, most, charge)
        invariant old(Healthy()) ==>
                    Suspended(regs) == if path < 0 then Suspended(old(regs)) else SwitchesOff(events[path])
        invariant old(Healthy()) ==> LimitFrom(old(regs), regs, table, events, limit)
        invariant old(Healthy()) && charge >= 0 ==> events[charge].Set?
        invariant old(Healthy()) ==> accepted == if charge < 0 then old(accepted) else events[charge].value
      {
        ghost var e, was, wasAccepted := events[k], regs, accepted;
        LastOfGrows(Path, events, k, most, path);
        LastOfGrows(Limit, events, k, most, limit);
        LastOfGrows(Charge, events, k, most, charge);
        Handle(events[k]);
        if old(Healthy()) {
          EventDecides(e, most, was, regs, table, wasAccepted, accepted);
          LimitFromGrows(old(regs), was, regs, table, events, limit, k);
        }
        path := if Decides(Path, e, 300000, most) then k else path;
        limit := if Decides(Limit, e, 300000, most) then k else limit;
        charge := if Decides(Charge, e, 300000, most) then k else charge;
        k := k + 1;
      }
      assert events[..k] == events;
      LimitsHold();
      if old(Healthy()) {
        DecisionsStand(events, most, old(regs), regs, table, old(accepted), accepted, path, limit, charge);
      }
    }
  }

  /** One failed write is enough: a charging port's path is enabled in the old mode, with neither the
      search nor its ceiling set. */
  method FastPortLeftInTheOldMode(table: seq<int>, regs: seq<bv8>) returns (c: Chip)
    requires IsIlimTable(table) && |regs| == REG_COUNT && regs[CMD_IL] & HC_BIT == 0
    ensures fresh(c) && c.Valid() && !Suspended(c.regs) && !HandedOver(c.regs)
    ensures c.regs[IL_CFG] == regs[IL_CFG] && c.regs[AICL_CFG] == regs[AICL_CFG]
    ensures InputLimit(c.regs, table) == InputLimit(regs, table)
  {
    c := new Chip(table, 0, 0, regs, [0, 0, -5]);
    ThirdAccessFails(regs[CMD_IL]);
    c.SourceDetect(true);
  }

  /** Whether or not the first update has anything to write, the third access is the switch's write
      or the read before it. */
  lemma ThirdAccessFails(cmd: bv8)
    requires cmd & HC_BIT == 0
    ensures var bus, m := [0, 0, -5], Merge(cmd, OVERRIDE_BIT, 0);
            var left := AfterUpdate(bus, cmd, OVERRIDE_BIT, 0);
            && UpdateResult(bus, cmd, OVERRIDE_BIT, 0) == 0
            && UpdateResult(left, m, HC_BIT, HC_BIT) == -5 && AfterUpdate(left, m, HC_BIT, HC_BIT) == []
  {
    var m := Merge(cmd, OVERRIDE_BIT, 0);
    assert m & HC_BIT == 0 && Merge(m, HC_BIT, HC_BIT) != m;
    assert Rest([0, 0, -5]) == [0, -5] && Rest([0, -5]) == [-5];
  }
}
