/** Reading and writing the fuel gauge's SRAM through a four-byte window that moves by rewriting
    an address register. Every pass asks the bus for all bytes still wanted, so it reads or
    writes past the window; the result must still be flat byte memory. On top of it sit the four
    battery temperature thresholds, one byte each in one SRAM word. */
module FgSram {
  import opened Common

  const ETIMEDOUT := 110

  /** What a bus access returns: 0 or a negative error code. */
  type Status = s: int | s <= 0

  /** Register addresses of one chip generation. */
  datatype Layout = Layout(cfg: nat, ctl: nat, addr: nat, wr0: nat, rd0: nat)

  const REV1 := Layout(0x440, 0x441, 0x442, 0x448, 0x44c)
  const REV3 := Layout(0x450, 0x451, 0x461, 0x463, 0x467)

  /** The control registers lie below the write window, so bytes spilling over its upper end
      cannot reach them. */
  predicate SpillIsHarmless(l: Layout) { l.cfg < l.wr0 && l.ctl < l.wr0 && l.addr + 1 < l.wr0 }

  lemma LayoutsSpillHarmlessly()
    ensures SpillIsHarmless(REV1) && SpillIsHarmless(REV3)
  {
  }

  // ---------------------------------------------------------------- flat memory

  function Patched(mem: seq<Byte>, at: nat, data: seq<Byte>): (r: seq<Byte>)
    requires at + |data| <= |mem|
  {
    mem[..at] + data + mem[at + |data|..]
  }

  /** The first k bytes of the data are written and nothing else has changed. */
  predicate PrefixWritten(was: seq<Byte>, now: seq<Byte>, at: nat, data: seq<Byte>, k: nat)
    requires at + |data| <= |was|
  {
    k <= |data| && now == Patched(was, at, data[..k])
  }

  /** Some of the data is written, but not its last byte. */
  ghost predicate CutShort(was: seq<Byte>, now: seq<Byte>, at: nat, data: seq<Byte>)
    requires at + |data| <= |was|
  {
    exists k: nat :: PrefixWritten(was, now, at, data, k) && (k == 0 || k < |data|)
  }

  function Passes(len: int, offset: nat): nat {
    if len <= 0 then 0 else (offset + len + 3) / 4
  }

  class FuelGauge {
    const layout: Layout
    const sram: array<Byte>
    /** What the registers above the read window happen to hold. */
    const beyond: nat -> Byte
    /** The error code of the n-th bus access, 0 for success. */
    const busError: nat -> Status
    var accesses: nat
    var address: nat
    var burst: bool
    var writing: bool
    var spilled: map<nat, Byte>

    constructor (layout: Layout, sram: array<Byte>, beyond: nat -> Byte, busError: nat -> Status)
      ensures this.layout == layout && this.sram == sram
      ensures this.beyond == beyond && this.busError == busError && accesses == 0
    {
      this.layout := layout;
      this.sram := sram;
      this.beyond := beyond;
      this.busError := busError;
      accesses, address, burst, writing, spilled := 0, 0, false, false, map[];
    }

    /** All accesses from the n-th up to the current one went well. */
    ghost predicate CleanSince(n: nat)
      reads this
    {
      forall i :: n <= i < accesses ==> busError(i) == 0
    }

    method Configure(write: bool, burst: bool) returns (ret: int)
      modifies `accesses, `burst, `writing
      ensures accesses == old(accesses) + 1 && ret == busError(old(accesses))
      ensures ret == 0 ==> writing == write && this.burst == burst
    {
      ret := busError(accesses);
      accesses := accesses + 1;
      if ret == 0 {
        writing, this.burst := write, burst;
      }
    }

    method SetAddress(addr: nat) returns (ret: int)
      modifies `accesses, `address
      ensures accesses == old(accesses) + 1 && ret == busError(old(accesses))
      ensures ret == 0 ==> address == addr
    {
      ret := busError(accesses);
      accesses := accesses + 1;
      if ret == 0 {
        address := addr;
      }
    }

    /** Bulk read of len registers starting offset bytes into the read window. */
    method ReadWindow(val: array<Byte>, at: nat, offset: nat, len: nat) returns (ret: int)
      requires val != sram && at + len <= val.Length
      requires offset <= 3 && address + offset + Min(len, 4 - offset) <= sram.Length
      modifies `accesses, val
      ensures accesses == old(accesses) + 1 && ret == busError(old(accesses))
      ensures ret == 0 ==> forall i :: at <= i < at + Min(len, 4 - offset) ==> val[i] == sram[address + offset + i - at]
      ensures forall i :: 0 <= i < val.Length && !(at <= i < at + len) ==> val[i] == old(val[i])
    {
      ret := busError(accesses);
      accesses := accesses + 1;
      if ret != 0 { return; }
      for j := 0 to len
        invariant accesses == old(accesses) + 1
        invariant forall i :: at <= i < at + Min(j, 4 - offset) ==> val[i] == sram[address + offset + i - at]
        invariant forall i :: 0 <= i < val.Length && !(at <= i < at + j) ==> val[i] == old(val[i])
      {
        val[at + j] := if offset + j < 4 then sram[address + offset + j] else beyond(layout.rd0 + offset + j);
      }
    }

    /** Bulk write of data starting offset bytes into the write window. */
    method WriteWindow(data: seq<Byte>, offset: nat) returns (ret: int)
      requires SpillIsHarmless(layout)
      requires offset <= 3 && address + offset + Min(|data|, 4 - offset) <= sram.Length
      modifies `accesses, `spilled, sram
      ensures accesses == old(accesses) + 1 && ret == busError(old(accesses))
      ensures ret != 0 ==> sram[..] == old(sram[..])
      ensures ret == 0 ==> sram[..] == Patched(old(sram[..]), address + offset, data[..Min(|data|, 4 - offset)])
      // what spills over stays clear of the control registers and of the window itself
      ensures forall r :: r in spilled && r !in old(spilled) ==> r >= layout.wr0 + 4
    {
      ret := busError(accesses);
      accesses := accesses + 1;
      if ret != 0 { return; }
      ghost var was := sram[..];
      for j := 0 to |data|
        invariant accesses == old(accesses) + 1
        invariant forall i :: 0 <= i < sram.Length ==>
          sram[i] == if address + offset <= i < address + offset + Min(j, 4 - offset)
                     then data[i - address - offset] else was[i]
        invariant forall r :: r in spilled && r !in old(spilled) ==> r >= layout.wr0 + 4
      {
        if offset + j < 4 {
          sram[address + offset + j] := data[j];
        } else {
          spilled := spilled[layout.wr0 + offset + j := data[j]];
        }
      }
    }

    /** Fills val with flat memory, whatever junk the passes copy on the way. */
    method Read(val: array<Byte>, addr: nat, len: int, offset: nat, granted: bool) returns (ret: int)
      requires val != sram && len <= val.Length && offset <= 3
      requires addr + offset + Max0(len) <= sram.Length <= 0x10000 && addr < 0x10000
      modifies `accesses, `address, `burst, `writing, val
      ensures ret == 0 <==> granted && CleanSince(old(accesses))
      ensures !granted ==> ret == -110 && accesses == old(accesses)
      ensures granted ==> accesses > old(accesses) && ret == busError(accesses - 1)
      ensures granted && accesses > old(accesses) + 1 ==> !writing && burst == (len > 4)
      ensures ret == 0 && len > 0 ==> val[..len] == sram[addr + offset..addr + offset + len]
      ensures ret == 0 ==> accesses == old(accesses) + 1 + 2 * Passes(len, offset)
      ensures forall j :: 0 <= j < val.Length && j >= len ==> val[j] == old(val[j])
    {
      if !granted { return -ETIMEDOUT; }
      ret := Configure(false, len > 4);
      if ret != 0 { return; }
      var at, left, o, done := addr, len, offset, 0;
      ghost var passes := 0;
      while left > 0
        invariant left == len - done && at < 0x10000
        invariant passes == 0 ==> done == 0 && o == offset && at == addr
        invariant passes > 0 ==> o == 0 && done == 4 * passes - offset && left > -4 && len > 0
        invariant left > 0 ==> at + o == addr + offset + done
        invariant forall j :: 0 <= j < Min(done, len) ==> val[j] == sram[addr + offset + j]
        invariant forall j :: 0 <= j < val.Length && j >= len ==> val[j] == old(val[j])
        invariant ret == 0 && CleanSince(old(accesses)) && !writing && burst == (len > 4)
        invariant accesses == old(accesses) + 1 + 2 * passes
      {
        ret := SetAddress(at);
        if ret != 0 { return; }
        ret := ReadWindow(val, done, o, left);
        at := (at + 4) % 0x10000;
        if ret != 0 { return; }
        done := done + 4 - o;
        left := left - (4 - o);
        o := 0;
        passes := passes + 1;
      }
    }

    /** One pass of a write: point the window, then push everything still to be written. */
    method WritePass(data: seq<Byte>, at: nat, o: nat, done: nat, ghost was: seq<Byte>, ghost base: nat)
      returns (ret: int)
      requires SpillIsHarmless(layout) && o <= 3 && done < |data| && at + o == base + done
      requires base + |data| <= |was| == sram.Length
      requires PrefixWritten(was, sram[..], base, data, done)
      modifies `accesses, `address, `spilled, sram
      ensures accesses >= old(accesses) + 1
      ensures ret == 0 ==> accesses == old(accesses) + 2
      ensures ret == 0 <==> CleanSince(old(accesses))
      ensures ret == busError(accesses - 1)
      ensures PrefixWritten(was, sram[..], base, data, if ret == 0 then Min(done + 4 - o, |data|) else done)
    {
      hide PrefixWritten, Patched;
      ret := SetAddress(at);
      if ret != 0 { return; }
      ret := WriteWindow(data[done..], o);
      if ret != 0 { return; }
      PrefixGrows(was, old(sram[..]), sram[..], base, data, done, Min(done + 4 - o, |data|));
    }

    /** Changes exactly the addressed bytes; a transfer that fails stops after some of them. */
    method Write(data: seq<Byte>, addr: nat, offset: nat, granted: bool) returns (ret: int)
      requires SpillIsHarmless(layout) && offset <= 3
      requires addr + offset + |data| <= sram.Length <= 0x10000 && addr < 0x10000
      modifies `accesses, `address, `burst, `writing, `spilled, sram
      ensures ret == 0 <==> granted && CleanSince(old(accesses))
      ensures !granted ==> ret == -110 && accesses == old(accesses)
      ensures granted ==> accesses > old(accesses) && ret == busError(accesses - 1)
      ensures granted && accesses > old(accesses) + 1 ==> writing && burst == (|data| > 4)
      ensures ret == 0 ==> sram[..] == Patched(old(sram[..]), addr + offset, data)
      ensures ret == 0 ==> accesses == old(accesses) + 1 + 2 * Passes(|data|, offset)
      ensures ret != 0 ==> CutShort(old(sram[..]), sram[..], addr + offset, data)
    {
      hide PrefixWritten, CutShort, Patched;
      ghost var was := sram[..];
      NothingWritten(was, addr + offset, data);
      StoppedAt(was, sram[..], addr + offset, data, 0);
      if !granted { return -ETIMEDOUT; }
      ret := Configure(true, |data| > 4);
      if ret != 0 { return; }
      var at, left, o, done := addr, |data|, offset, 0;
      ghost var passes := 0;
      while left > 0
        invariant left == |data| - done && at < 0x10000
        invariant passes == 0 ==> done == 0 && o == offset && at == addr
        invariant passes > 0 ==> o == 0 && done == 4 * passes - offset && left > -4 && |data| > 0
        invariant left > 0 ==> at + o == addr + offset + done
        invariant PrefixWritten(was, sram[..], addr + offset, data, Min(done, |data|))
        invariant ret == 0 && CleanSince(old(accesses)) && writing && burst == (|data| > 4)
        invariant accesses == old(accesses) + 1 + 2 * passes
      {
        ghost var before := accesses;
        ret := WritePass(data, at, o, done, was, addr + offset);
        if ret != 0 {
          StoppedAt(was, sram[..], addr + offset, data, done);
          return;
        }
        at := (at + 4) % 0x10000;
        done := done + 4 - o;
        left := left - (4 - o);
        o := 0;
        passes := passes + 1;
      }
      StoppedAt(was, sram[..], addr + offset, data, |data|);
    }

    method GetTempThreshold(psp: Property, granted: bool) returns (ret: int, val: int)
      requires TEMP_THRESHOLD + 4 <= sram.Length <= 0x10000
      modifies `accesses, `address, `burst, `writing
      ensures psp.OtherProperty? ==> ret == -22 && accesses == old(accesses)
      ensures !psp.OtherProperty? ==> (ret == 0 <==> granted && CleanSince(old(accesses)))
      ensures !psp.OtherProperty? && !granted ==> ret == -110 && accesses == old(accesses)
      ensures !psp.OtherProperty? && granted ==> accesses > old(accesses) && ret == busError(accesses - 1)
      ensures ret == 0 ==> !psp.OtherProperty? && accesses == old(accesses) + 3 && !writing && !burst
      ensures ret == 0 && psp.TempMin? ==> val == (sram[0x454] as int - 30) * 10
      ensures ret == 0 && psp.TempMax? ==> val == (sram[0x455] as int - 30) * 10
      ensures ret == 0 && psp.TempAlertMin? ==> val == (sram[0x456] as int - 30) * 10
      ensures ret == 0 && psp.TempAlertMax? ==> val == (sram[0x457] as int - 30) * 10
    {
      val := 0;
      var slot := Slot(psp);
      if slot.None? { return -EINVAL, 0; }
      var temp := new Byte[1];
      ret := Read(temp, TEMP_THRESHOLD, 1, slot.value, granted);
      if ret < 0 { return; }
      assert temp[..1][0] == sram[TEMP_THRESHOLD + slot.value];
      var code: int := temp[0];
      val := (code - 30) * 10;
    }

    method SetTempThreshold(psp: Property, val: int, granted: bool) returns (ret: int)
      requires SpillIsHarmless(layout) && TEMP_THRESHOLD + 4 <= sram.Length <= 0x10000
      modifies `accesses, `address, `burst, `writing, `spilled, sram
      ensures psp.OtherProperty? ==> ret == -22 && accesses == old(accesses)
      ensures !psp.OtherProperty? ==> (ret == 0 <==> granted && CleanSince(old(accesses)))
      ensures !psp.OtherProperty? && !granted ==> ret == -110 && accesses == old(accesses)
      ensures !psp.OtherProperty? && granted ==> accesses > old(accesses) && ret == busError(accesses - 1)
      ensures ret != 0 ==> sram[..] == old(sram[..])
      ensures ret == 0 ==> !psp.OtherProperty? && accesses == old(accesses) + 3 && writing && !burst
      ensures ret == 0 && psp.TempMin? ==> sram[..] == old(sram[..])[0x454 := Encode(val)]
      ensures ret == 0 && psp.TempMax? ==> sram[..] == old(sram[..])[0x455 := Encode(val)]
      ensures ret == 0 && psp.TempAlertMin? ==> sram[..] == old(sram[..])[0x456 := Encode(val)]
      ensures ret == 0 && psp.TempAlertMax? ==> sram[..] == old(sram[..])[0x457 := Encode(val)]
    {
      hide Encode;
      var slot := Slot(psp);
      if slot.None? { return -EINVAL; }
      var temp := [Encode(val)];
      ghost var was := sram[..];
      ret := Write(temp, TEMP_THRESHOLD, slot.value, granted);
      ghost var at := TEMP_THRESHOLD + slot.value;
      assert Patched(was, at, temp[..0]) == was;
      assert Patched(was, at, temp) == was[at := temp[0]];
      assert ret != 0 ==> CutShort(was, sram[..], at, temp);
    }

    /** The byte of every property is that of its last accepted value, and nothing else has moved. */
    ghost predicate Remembers(was: seq<Byte>, calls: seq<SetCall>, rets: seq<int>)
      requires |calls| == |rets| && |was| == sram.Length && TEMP_THRESHOLD + 4 <= sram.Length
      reads sram
    {
      && (forall at :: 0 <= at < |was| && !(0x454 <= at < 0x458) ==> sram[at] == was[at])
      && (forall psp: Property :: Slot(psp).Some? ==>
            var at := TEMP_THRESHOLD + Slot(psp).value;
            sram[at] == match LastAccepted(calls, rets, psp) case None => was[at] case Some(v) => Encode(v))
    }

    /** Any sequence of sets, some of them failing. */
    method SetAll(calls: seq<SetCall>) returns (rets: seq<int>)
      requires SpillIsHarmless(layout) && TEMP_THRESHOLD + 4 <= sram.Length <= 0x10000
      modifies `accesses, `address, `burst, `writing, `spilled, sram
      ensures |rets| == |calls| && Remembers(old(sram[..]), calls, rets)
      ensures (forall n :: busError(n) == 0) ==>
                forall k :: 0 <= k < |calls| ==> (rets[k] == 0 <==> calls[k].granted && Slot(calls[k].psp).Some?)
    {
      rets := [];
      while |rets| < |calls|
        invariant |rets| <= |calls| && Remembers(old(sram[..]), calls[..|rets|], rets)
        invariant (forall n :: busError(n) == 0) ==>
                    forall k :: 0 <= k < |rets| ==> (rets[k] == 0 <==> calls[k].granted && Slot(calls[k].psp).Some?)
        decreases |calls| - |rets|
      {
        ghost var k, before := |rets|, sram[..];
        var call := calls[|rets|];
        var ret := SetTempThreshold(call.psp, call.val, call.granted);
        assert calls[..k + 1][..k] == calls[..k] && (rets + [ret])[..k] == rets;
        forall psp: Property | Slot(psp).Some?
          ensures sram[TEMP_THRESHOLD + Slot(psp).value]
               == if ret == 0 && psp == call.psp then Encode(call.val) else before[TEMP_THRESHOLD + Slot(psp).value]
        {
          SlotsDiffer(psp, call.psp);
        }
        rets := rets + [ret];
      }
      assert calls[..|rets|] == calls;
    }

    /** Whatever was set before, reading a property back gives the value it last accepted, cut toward
        zero to whole degrees, exactly if that value fits. */
    method SetAllThenGet(calls: seq<SetCall>, psp: Property, granted: bool)
      returns (rets: seq<int>, ret: int, val: int)
      requires SpillIsHarmless(layout) && TEMP_THRESHOLD + 4 <= sram.Length <= 0x10000
      modifies `accesses, `address, `burst, `writing, `spilled, sram
      ensures |rets| == |calls| && Remembers(old(sram[..]), calls, rets)
      ensures (forall n :: busError(n) == 0) ==> (ret == 0 <==> granted && Slot(psp).Some?)
      ensures (forall n :: busError(n) == 0) ==>
                forall k :: 0 <= k < |calls| ==> (rets[k] == 0 <==> calls[k].granted && Slot(calls[k].psp).Some?)
      ensures ret == 0 && LastAccepted(calls, rets, psp).Some? ==>
                var last := LastAccepted(calls, rets, psp).value;
                (val == TruncDiv(last, 10) * 10 <==> -309 <= last <= 2259)
      ensures ret == 0 && LastAccepted(calls, rets, psp).None? && psp.TempMin? ==>
                val == (old(sram[0x454]) as int - 30) * 10
      ensures ret == 0 && LastAccepted(calls, rets, psp).None? && psp.TempMax? ==>
                val == (old(sram[0x455]) as int - 30) * 10
      ensures ret == 0 && LastAccepted(calls, rets, psp).None? && psp.TempAlertMin? ==>
                val == (old(sram[0x456]) as int - 30) * 10
      ensures ret == 0 && LastAccepted(calls, rets, psp).None? && psp.TempAlertMax? ==>
                val == (old(sram[0x457]) as int - 30) * 10
    {
      rets := SetAll(calls);
      ret, val := GetTempThreshold(psp, granted);
      if LastAccepted(calls, rets, psp).Some? {
        ThresholdSurvives(LastAccepted(calls, rets, psp).value);
      }
    }
  }

  // ---------------------------------------------------------------- temperature thresholds

  /** One call of the setter, and whether access is granted to it. */
  datatype SetCall = SetCall(psp: Property, val: int, granted: bool)

  /** The last value a property was successfully set to. */
  function LastAccepted(calls: seq<SetCall>, rets: seq<int>, psp: Property): Option<int>
    requires |calls| == |rets|
  {
    if calls == [] then None
    else
      var n := |calls| - 1;
      if rets[n] == 0 && calls[n].psp == psp then Some(calls[n].val)
      else LastAccepted(calls[..n], rets[..n], psp)
  }

  predicate Accepted(calls: seq<SetCall>, rets: seq<int>, psp: Property, i: nat)
    requires i < |calls| == |rets|
  {
    calls[i].psp == psp && rets[i] == 0
  }

  /** It is the value of an accepted call for the property that no other accepted one follows. */
  lemma {:induction false} LastAcceptedIsLast(calls: seq<SetCall>, rets: seq<int>, psp: Property, i: nat)
    requires i < |calls| == |rets| && Accepted(calls, rets, psp, i)
    requires forall j :: i < j < |calls| ==> !Accepted(calls, rets, psp, j)
    ensures LastAccepted(calls, rets, psp) == Some(calls[i].val)
  {
    var n := |calls| - 1;
    if i < n {
      assert !Accepted(calls, rets, psp, n);
      forall j | i < j < n
        ensures !Accepted(calls[..n], rets[..n], psp, j)
      {
        assert !Accepted(calls, rets, psp, j);
      }
      LastAcceptedIsLast(calls[..n], rets[..n], psp, i);
    }
  }

  lemma {:induction false} NoneAccepted(calls: seq<SetCall>, rets: seq<int>, psp: Property)
    requires |calls| == |rets| && forall j :: 0 <= j < |calls| ==> !Accepted(calls, rets, psp, j)
    ensures LastAccepted(calls, rets, psp).None?
  {
    if calls != [] {
      var n := |calls| - 1;
      assert !Accepted(calls, rets, psp, n);
      forall j | 0 <= j < n
        ensures !Accepted(calls[..n], rets[..n], psp, j)
      {
        assert !Accepted(calls, rets, psp, j);
      }
      NoneAccepted(calls[..n], rets[..n], psp);
    }
  }

  const TEMP_THRESHOLD := 0x454

  datatype Property = TempMin | TempMax | TempAlertMin | TempAlertMax | OtherProperty

  function Slot(psp: Property): (s: Option<nat>)
    ensures s.Some? ==> s.value < 4
  {
    match psp
    case TempMin => Some(0)
    case TempMax => Some(1)
    case TempAlertMin => Some(2)
    case TempAlertMax => Some(3)
    case OtherProperty => None
  }

  lemma SlotsDiffer(a: Property, b: Property)
    ensures Slot(a).Some? && Slot(a) == Slot(b) ==> a == b
  {
  }

  /** C division: toward zero. */
  function TruncDiv(a: int, b: int): (q: int)
    requires b > 0
    // the remainder has the sign of the dividend
    ensures a >= 0 ==> 0 <= a - q * b < b
    ensures a < 0 ==> -b < a - q * b <= 0
  {
    if a < 0 then -(-a / b) else a / b
  }

  /** The byte stored for a threshold in tenths of a degree; the cast keeps the low eight bits. */
  function Encode(val: int): Byte { (TruncDiv(val, 10) + 30) % 256 }

  function Decode(b: Byte): int { (b - 30) * 10 }

  /** A threshold survives storing exactly when it lies in [-30.9, 225.9] degrees; what comes
      back is then the value cut toward zero to whole degrees. Any other comes back off by a
      multiple of 256 degrees. */
  lemma ThresholdSurvives(val: int)
    ensures Decode(Encode(val)) == TruncDiv(val, 10) * 10 <==> -309 <= val <= 2259
    ensures (Decode(Encode(val)) - TruncDiv(val, 10) * 10) % 2560 == 0
    ensures -309 <= val <= 2259 ==> Decode(Encode(val)) == val - (if val < 0 then -(-val % 10) else val % 10)
  {
  }

  function Max0(a: int): nat { if a < 0 then 0 else a }

  lemma StoppedAt(was: seq<Byte>, now: seq<Byte>, at: nat, data: seq<Byte>, k: nat)
    requires at + |data| <= |was| && PrefixWritten(was, now, at, data, k)
    ensures k == 0 || k < |data| ==> CutShort(was, now, at, data)
    ensures k == |data| ==> now == Patched(was, at, data)
  {
    assert data[..|data|] == data;
  }

  lemma NothingWritten(was: seq<Byte>, at: nat, data: seq<Byte>)
    requires at + |data| <= |was|
    ensures PrefixWritten(was, was, at, data, 0)
  {
    assert was == Patched(was, at, data[..0]);
  }

  lemma PrefixGrows(was: seq<Byte>, before: seq<Byte>, now: seq<Byte>, at: nat, data: seq<Byte>, j: nat, k: nat)
    requires at + |data| <= |was| && j <= k <= |data|
    requires PrefixWritten(was, before, at, data, j)
    requires now == Patched(before, at + j, data[j..][..k - j])
    ensures PrefixWritten(was, now, at, data, k)
  {
    assert data[..j] + data[j..][..k - j] == data[..k];
  }
}
