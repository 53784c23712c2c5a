/** Reading from a DSI panel. The host keeps only the last 16 bytes of a reply in a shift FIFO,
    so a long read is repeated with a growing "maximum return size", and the driver stitches the
    passes together by skipping the bytes it already has. */
module DsiRead {
  import opened Common

  const FIFO := 16
  const HEADER := 4
  const CRC := 2
  const FIRST := 10   // payload bytes the first pass brings in
  const LATER := 14   // payload bytes each later pass adds

  const ECOMM := 70

  const ACK_ERROR: Byte := 0x02
  const GENERIC_LONG: Byte := 0x1a
  const DCS_LONG: Byte := 0x1c
  const GENERIC_SHORT1: Byte := 0x11
  const GENERIC_SHORT2: Byte := 0x12
  const DCS_SHORT1: Byte := 0x21
  const DCS_SHORT2: Byte := 0x22

  // ---------------------------------------------------------------- the panel and the FIFO

  /** A panel that answers every pass with the same payload, cut to the size it was last told.
      The header carries that size and the trailer checks it, so both change from pass to pass. */
  datatype Panel = Panel(header: nat -> seq<Byte>, payload: seq<Byte>, crc: nat -> seq<Byte>)

  ghost predicate Answers(p: Panel, len: nat) {
    && |p.payload| >= len
    && (forall n: nat :: |p.header(n)| == HEADER)
    && (forall n: nat :: |p.crc(n)| == CRC)
  }

  function Reply(p: Panel, size: nat): seq<Byte>
    requires size <= |p.payload|
  {
    p.header(size) + p.payload[..size] + p.crc(size)
  }

  /** What the FIFO shows: the last 16 bytes of whatever was there before and the reply. */
  function Fifo(stale: seq<Byte>, reply: seq<Byte>): (r: seq<Byte>)
    requires |stale| == FIFO
    ensures |r| == FIFO
  {
    (stale + reply)[|reply|..]
  }

  // ---------------------------------------------------------------- the pass arithmetic

  /** Maximum return size asked for in pass k, and where its bytes go in the buffer. */
  function PassSize(len: nat, k: nat): nat { Min(len, FIRST + LATER * k) }
  function PassOffset(k: nat): nat { (FIFO - CRC) * k }

  /** How many passes a read of len bytes takes. */
  function PassCount(len: nat): nat {
    if len <= FIRST then 1 else 1 + (len - FIRST + LATER - 1) / LATER
  }

  lemma LastPassIsFull(len: nat)
    requires len > 2
    ensures PassSize(len, PassCount(len) - 1) == len
    ensures forall k: nat :: k < PassCount(len) - 1 ==> PassSize(len, k) == FIRST + LATER * k < len
  {
  }

  /** Bytes of the FIFO the driver skips because the buffer has them already. */
  function Repeated(size: nat, offset: nat): int {
    if size + HEADER + CRC > FIFO then offset - (size + HEADER + CRC - FIFO) else 0
  }

  function Skipped(rxByte: nat, size: nat, offset: nat): int {
    if rxByte == 4 then 0 else Repeated(size, offset)
  }

  /** The heart of the stitching: from the first byte it does not skip, the FIFO of pass k shows
      the reply from exactly the buffer position on. */
  lemma SkipsExactlyTheOverlap(p: Panel, stale: seq<Byte>, len: nat, k: nat)
    requires len > 2 && Answers(p, len) && |stale| == FIFO && k < PassCount(len)
    ensures var size := PassSize(len, k);
            var skip := Repeated(size, PassOffset(k));
            && 0 <= skip < FIFO
            && (size >= FIRST ==> Fifo(stale, Reply(p, size))[skip..] == Reply(p, size)[PassOffset(k)..])
            && (size < FIRST ==> k == 0 && skip == 0)
            && (size < FIRST ==> Fifo(stale, Reply(p, size))[FIRST - size..] == Reply(p, size))
  {
    LastPassIsFull(len);
    var reply := Reply(p, PassSize(len, k));
    var fifo := Fifo(stale, reply);
    forall i | 0 <= i < FIFO && |reply| + i >= FIFO ensures fifo[i] == reply[|reply| + i - FIFO] {
    }
  }

  // ---------------------------------------------------------------- the driver

  /** The readback registers as the driver copies them: the newest cnt words of the FIFO, oldest
      first, over whatever the stack held. */
  function Registers(fifo: seq<Byte>, cnt: nat, stack: seq<Byte>): (r: seq<Byte>)
    requires |fifo| == |stack| == FIFO && cnt <= 4
    ensures |r| == FIFO
  {
    fifo[FIFO - 4 * cnt..] + stack[4 * cnt..]
  }

  /** The link during one read: the result of sending each pass's two commands, and what the FIFO
      and the stack hold besides the reply. */
  datatype Link = Link(setRet: nat -> int, readRet: nat -> int, stale: nat -> seq<Byte>, stack: nat -> seq<Byte>)

  ghost predicate LinkOk(link: Link) {
    forall k: nat :: |link.stale(k)| == FIFO && |link.stack(k)| == FIFO
  }

  /** What pass k returns for, 0 if it goes through. */
  function PassError(link: Link, txLen: nat, k: nat): int {
    if link.setRet(k) < 2 then -EINVAL
    else if link.readRet(k) < 0 then link.readRet(k)
    else if link.readRet(k) < txLen then -ECOMM
    else 0
  }

  ghost predicate AllPass(link: Link, txLen: nat, n: nat) {
    forall k: nat :: k < n ==> PassError(link, txLen, k) == 0
  }

  /** The first n passes go through: both commands of each are sent in full. */
  ghost predicate Through(link: Link, txLen: nat, n: nat) {
    forall k: nat :: k < n ==> link.setRet(k) >= 2 && link.readRet(k) >= txLen
  }

  lemma ThroughMeans(link: Link, txLen: nat)
    ensures forall n: nat :: Through(link, txLen, n) <==> AllPass(link, txLen, n)
  {
    forall n: nat ensures Through(link, txLen, n) <==> AllPass(link, txLen, n) {
      assert forall k: nat :: PassError(link, txLen, k) == 0 <==> link.setRet(k) >= 2 && link.readRet(k) >= txLen;
    }
  }

  /** Pass k is the first that does not go through, for the reason given. */
  ghost predicate FailsFirst(link: Link, txLen: nat, k: nat, ret: int) {
    && Through(link, txLen, k) && !Through(link, txLen, k + 1)
    && ret == if link.setRet(k) < 2 then -22 else if link.readRet(k) < 0 then link.readRet(k) else -70
  }

  lemma FirstFailure(link: Link, txLen: nat, k: nat)
    requires AllPass(link, txLen, k) && PassError(link, txLen, k) != 0
    ensures FailsFirst(link, txLen, k, PassError(link, txLen, k))
    ensures forall n: nat :: n > k ==> !Through(link, txLen, n)
  {
    ThroughMeans(link, txLen);
    assert !AllPass(link, txLen, k + 1);
    forall n: nat | n > k ensures !AllPass(link, txLen, n) {
      assert PassError(link, txLen, k) != 0;
    }
  }

  lemma NothingPassed(link: Link, txLen: nat)
    ensures AllPass(link, txLen, 0)
  {
  }

  lemma OnePassed(link: Link, txLen: nat)
    requires PassError(link, txLen, 0) == 0
    ensures AllPass(link, txLen, 1)
  {
  }

  /** Consecutive slices of the buffer. */
  lemma HeadThenPayload(b: seq<Byte>, at: nat, head: seq<Byte>, payload: seq<Byte>)
    requires at + |head| + |payload| <= |b| && b[at..at + |head| + |payload|] == head + payload
    ensures b[at..][..|head|] == head && b[at + |head|..][..|payload|] == payload
  {
    var both := b[at..at + |head| + |payload|];
    assert b[at..][..|head|] == both[..|head|];
    assert b[at + |head|..][..|payload|] == both[|head|..];
  }

  /** A short read is one pass, whatever its length. */
  function Passes(rxLen: nat): nat {
    if rxLen <= 2 then 1 else PassCount(rxLen)
  }

  /** The first four bytes of what the panel answers. */
  ghost function Head(p: Panel, shortReply: seq<Byte>, rxLen: nat): (h: seq<Byte>)
    requires Answers(p, rxLen) && |shortReply| == HEADER
    ensures |h| == HEADER
  {
    if rxLen <= 2 then shortReply else p.header(PassSize(rxLen, 0))
  }

  /** What follows them; behind a short reply that is what the stack held. */
  ghost function Payload(p: Panel, link: Link, rxLen: nat): (b: seq<Byte>)
    requires Answers(p, rxLen) && LinkOk(link)
    ensures |b| == rxLen
  {
    if rxLen <= 2 then link.stack(0)[HEADER..HEADER + rxLen] else p.payload[..rxLen]
  }

  /** What the caller gets of a response, by the type in its first byte: 0x11 and 0x21 carry one byte,
      0x12 and 0x22 two, 0x1a and 0x1c as many as were asked for behind a header of four. A short one
      for which the caller has no room is an error; any other type hands over nothing. */
  predicate HandedOver(head: seq<Byte>, payload: seq<Byte>, ret: int, was: seq<Byte>, now: seq<Byte>)
    requires |head| == HEADER && |payload| <= |was|
  {
    var rxLen := |payload|;
    && (head[0] == 0x11 || head[0] == 0x21 ==>
          if rxLen >= 1 then ret == 1 && now == [head[1]] + was[1..] else ret == -22 && now == was)
    && (head[0] == 0x12 || head[0] == 0x22 ==>
          if rxLen >= 2 then ret == 2 && now == [head[1], head[2]] + was[2..] else ret == -22 && now == was)
    && (head[0] == 0x1a || head[0] == 0x1c ==> ret == rxLen && now == payload + was[rxLen..])
    && (head[0] !in [0x11, 0x21, 0x12, 0x22, 0x1a, 0x1c] ==> ret == 0 && now == was)
  }

  /** Header of the first pass, then payload. */
  function Assembled(p: Panel, len: nat, n: nat): seq<Byte>
    requires n <= |p.payload|
  {
    p.header(PassSize(len, 0)) + p.payload[..n]
  }

  /** The buffer between passes: everything before the next pass's position is in place. */
  ghost predicate Stitched(b: seq<Byte>, p: Panel, len: nat, k: nat) {
    k == 0 ||
    (&& HEADER <= PassOffset(k) <= |b| && PassOffset(k) - HEADER <= |p.payload|
     && b[..PassOffset(k)] == Assembled(p, len, PassOffset(k) - HEADER))
  }

  /** The buffer after the last pass; a reply too short to fill the FIFO sits at its end. */
  ghost predicate Complete(b: seq<Byte>, p: Panel, len: nat) {
    && |b| >= Max(FIFO, len + HEADER + CRC) && len <= |p.payload|
    && b[Max(0, FIRST - len)..][..HEADER + len] == Assembled(p, len, len)
  }

  /** What a pass makes of the buffer. */
  ghost predicate Passed(p: Panel, stale: seq<Byte>, len: nat, k: nat, before: seq<Byte>, after: seq<Byte>)
    requires len > 2 && Answers(p, len) && |stale| == FIFO && k < PassCount(len)
  {
    var off, skip := PassOffset(k), Repeated(PassSize(len, k), PassOffset(k));
    && 0 <= skip < FIFO && off + FIFO - skip <= |before|
    && after == before[..off] + Fifo(stale, Reply(p, PassSize(len, k)))[skip..] + before[off + FIFO - skip..]
  }

  /** A payload shorter than the first reply is complete behind the stale bytes. */
  lemma ShortReplyCompletes(p: Panel, stale: seq<Byte>, len: nat, before: seq<Byte>, after: seq<Byte>)
    requires 2 < len < FIRST && Answers(p, len) && |stale| == FIFO && |before| >= FIFO
    requires Passed(p, stale, len, 0, before, after)
    ensures Complete(after, p, len)
  {
    SkipsExactlyTheOverlap(p, stale, len, 0);
    var reply := Reply(p, len);
    assert after[FIRST - len..FIFO] == reply;
    assert reply[..HEADER + len] == Assembled(p, len, len);
    assert after[FIRST - len..][..HEADER + len] == reply[..HEADER + len];
  }

  /** The first full reply brings the header and the first ten payload bytes. */
  lemma FirstReplyStitches(p: Panel, stale: seq<Byte>, len: nat, before: seq<Byte>, after: seq<Byte>)
    requires len >= FIRST && Answers(p, len) && |stale| == FIFO && |before| >= FIFO
    requires Passed(p, stale, len, 0, before, after)
    ensures |after| == |before| && after[..HEADER + FIRST] == Assembled(p, len, FIRST)
  {
    SkipsExactlyTheOverlap(p, stale, len, 0);
    var reply := Reply(p, FIRST);
    assert after[..FIFO] == reply;
    assert reply[..HEADER + FIRST] == p.header(FIRST) + p.payload[..FIRST];
  }

  /** A later reply continues the payload where the buffer ends. */
  lemma LaterReplyStitches(p: Panel, stale: seq<Byte>, len: nat, k: nat, before: seq<Byte>, after: seq<Byte>)
    requires len > 2 && Answers(p, len) && |stale| == FIFO && 0 < k < PassCount(len)
    requires |before| >= Max(FIFO, len + HEADER + CRC) && Stitched(before, p, len, k)
    requires Passed(p, stale, len, k, before, after)
    ensures |after| == |before| && after[..HEADER + PassSize(len, k)] == Assembled(p, len, PassSize(len, k))
  {
    SkipsExactlyTheOverlap(p, stale, len, k);
    var size, off := PassSize(len, k), PassOffset(k);
    var reply := Reply(p, size);
    assert after[..|reply|] == before[..off] + reply[off..];
    assert reply[off..HEADER + size] == p.payload[off - HEADER..size];
    assert before[..off] + p.payload[off - HEADER..size]
        == p.header(PassSize(len, 0)) + (p.payload[..off - HEADER] + p.payload[off - HEADER..size]);
    assert p.payload[..off - HEADER] + p.payload[off - HEADER..size] == p.payload[..size];
  }

  /** A pass takes the buffer from one stitched stage to the next, the last one to completion. */
  lemma PassStitches(p: Panel, stale: seq<Byte>, len: nat, k: nat, before: seq<Byte>, after: seq<Byte>)
    requires len > 2 && Answers(p, len) && |stale| == FIFO && k < PassCount(len)
    requires |before| >= Max(FIFO, len + HEADER + CRC) && Stitched(before, p, len, k)
    requires Passed(p, stale, len, k, before, after)
    ensures k + 1 < PassCount(len) ==> Stitched(after, p, len, k + 1)
    ensures k + 1 == PassCount(len) ==> Complete(after, p, len)
  {
    hide Passed;
    LastPassIsFull(len);
    if len < FIRST {
      ShortReplyCompletes(p, stale, len, before, after);
    } else if k == 0 {
      FirstReplyStitches(p, stale, len, before, after);
    } else {
      LaterReplyStitches(p, stale, len, k, before, after);
    }
  }

  class DsiHost {
    const rxBuf: array<Byte>
    /** The maximum return sizes sent to the panel, in order. */
    var sizes: seq<nat>

    constructor (rxBuf: array<Byte>)
      ensures this.rxBuf == rxBuf && sizes == []
    {
      this.rxBuf := rxBuf;
      sizes := [];
    }

    /** Reads cnt readback words, oldest first, into the driver's 16 bytes on the stack. */
    static method LoadRegisters(fifo: seq<Byte>, cnt: nat, stack: seq<Byte>) returns (reg: array<Byte>)
      requires |fifo| == |stack| == FIFO && cnt <= 4
      ensures fresh(reg) && reg[..] == Registers(fifo, cnt, stack)
    {
      reg := new Byte[FIFO](i requires 0 <= i < FIFO => stack[i]);
      var i, at := cnt - 1, 0;
      while i >= 0
        invariant -1 <= i < cnt && at == cnt - 1 - i
        invariant forall n :: 0 <= n < FIFO ==> reg[n] == if n < 4 * at then fifo[FIFO - 4 * cnt + n] else stack[n]
      {
        // word i of the readback registers, in host byte order
        var word := fifo[FIFO - 4 * (i + 1)..FIFO - 4 * i];
        reg[4 * at], reg[4 * at + 1], reg[4 * at + 2], reg[4 * at + 3] := word[0], word[1], word[2], word[3];
        i, at := i - 1, at + 1;
      }
    }

    /** Copies the registers behind the skipped bytes to the buffer position. */
    method DmaRx(buf: nat, rxByte: nat, pktSize: nat, fifo: seq<Byte>, stack: seq<Byte>) returns (j: int)
      requires |fifo| == |stack| == FIFO
      requires rxByte != 4 ==> 0 <= Repeated(pktSize, buf) <= FIFO
      requires buf + FIFO - Skipped(rxByte, pktSize, buf) <= rxBuf.Length
      modifies rxBuf
      ensures j == FIFO - Skipped(rxByte, pktSize, buf)
      ensures rxBuf[..] == old(rxBuf[..])[..buf]
                           + Registers(fifo, Min((rxByte + 3) / 4, 4), stack)[FIFO - j..]
                           + old(rxBuf[..])[buf + j..]
    {
      var cnt := (rxByte + 3) / 4;
      if cnt > 4 {
        cnt := 4;
      }
      var readCnt := if rxByte == 4 then 4 else pktSize + 6;
      var repeated := 0;
      if readCnt > 16 {
        var shifted := readCnt - 16;
        repeated := buf - shifted;
      }
      var reg := LoadRegisters(fifo, cnt, stack);
      ghost var was := rxBuf[..];
      ghost var regs := reg[..];
      j := 0;
      while repeated + j < 16
        invariant 0 <= j <= 16 - repeated
        invariant reg[..] == regs
        invariant forall n :: 0 <= n < rxBuf.Length ==>
          rxBuf[n] == if buf <= n < buf + j then regs[repeated + n - buf] else was[n]
      {
        rxBuf[buf + j] := reg[repeated + j];
        j := j + 1;
      }
    }

    /** One pass of a long read: tell the panel the size, send the read, take the reply in. */
    method Pass(buf: nat, pktSize: nat, txLen: nat, p: Panel, link: Link, len: nat, k: nat)
      returns (ret: int, dlen: int)
      requires len > 2 && Answers(p, len) && LinkOk(link) && k < PassCount(len)
      requires Max(FIFO, len + HEADER + CRC) <= rxBuf.Length
      requires buf == PassOffset(k) && pktSize == PassSize(len, k) && Stitched(rxBuf[..], p, len, k)
      modifies this, rxBuf
      ensures forall i :: Max(FIFO, len + HEADER + CRC) <= i < rxBuf.Length ==> rxBuf[i] == old(rxBuf[i])
      ensures ret == PassError(link, txLen, k)
      ensures ret == 0 ==> sizes == old(sizes) + [pktSize]
      ensures ret == 0 ==> dlen == FIFO - Repeated(pktSize, buf) > 0
      ensures ret == 0 && k + 1 < PassCount(len) ==> Stitched(rxBuf[..], p, len, k + 1)
      ensures ret == 0 && k + 1 == PassCount(len) ==> Complete(rxBuf[..], p, len)
    {
      hide Stitched, Complete;
      dlen := 0;
      ret := link.setRet(k);
      if ret < 2 { return -EINVAL, 0; }
      sizes := sizes + [pktSize];
      ret := link.readRet(k);
      if ret < 0 { return; }
      if ret < txLen { return -ECOMM, 0; }
      LastPassIsFull(len);
      SkipsExactlyTheOverlap(p, link.stale(k), len, k);
      ghost var before := rxBuf[..];
      dlen := DmaRx(buf, FIRST + 6, pktSize, Fifo(link.stale(k), Reply(p, pktSize)), link.stack(k));
      ret := 0;
      PassStitches(p, link.stale(k), len, k, before, rxBuf[..]);
    }

    /** A read of more than two bytes: the passes. On success the buffer holds the first header
        and the whole payload, written no further than six bytes past the length asked for. */
    method ReadPasses(len: nat, txLen: nat, p: Panel, link: Link) returns (ret: int, pktSize: nat)
      requires len > 2 && Answers(p, len) && LinkOk(link)
      requires Max(FIFO, len + HEADER + CRC) <= rxBuf.Length
      modifies this, rxBuf
      ensures forall i :: Max(FIFO, len + HEADER + CRC) <= i < rxBuf.Length ==> rxBuf[i] == old(rxBuf[i])
      ensures ret == 0 <==> AllPass(link, txLen, PassCount(len))
      ensures ret == 0 ==> pktSize == len && Complete(rxBuf[..], p, len)
      ensures ret == 0 ==> sizes == old(sizes) + seq(PassCount(len), i requires i >= 0 => PassSize(len, i))
      // a failed pass stops the read with its error
      ensures ret != 0 ==> exists k: nat :: k < PassCount(len) && AllPass(link, txLen, k)
                             && ret == PassError(link, txLen, k)
    {
      var rlen, dataByte, buf := len, FIRST, 0;
      pktSize := if rlen < dataByte then rlen else dataByte;
      var end := false;
      var k := 0;
      LastPassIsFull(len);
      while !end
        invariant k <= PassCount(len) && (end <==> k == PassCount(len))
        invariant forall i :: Max(FIFO, len + HEADER + CRC) <= i < rxBuf.Length ==> rxBuf[i] == old(rxBuf[i])
        invariant AllPass(link, txLen, k)
        invariant !end ==> buf == PassOffset(k) && pktSize == PassSize(len, k)
        invariant !end ==> dataByte == (if k == 0 then FIRST else LATER)
        invariant !end ==> rlen == (if k == 0 then len else len - FIRST - LATER * (k - 1))
        invariant !end ==> Stitched(rxBuf[..], p, len, k)
        invariant end ==> pktSize == len && Complete(rxBuf[..], p, len)
        invariant sizes == old(sizes) + seq(k, i requires i >= 0 => PassSize(len, i))
        decreases PassCount(len) - k
      {
        var dlen;
        ret, dlen := Pass(buf, pktSize, txLen, p, link, len, k);
        if ret != 0 { return; }
        var diff := 0;
        if rlen <= dataByte {
          diff := dataByte - rlen;
          end := true;
        } else {
          rlen := rlen - dataByte;
        }
        if !end {
          dlen := dlen - 2;
          dlen := dlen - diff;
          buf := buf + dlen;
          dataByte := LATER;
          pktSize := pktSize + (if rlen < dataByte then rlen else dataByte);
        }
        k := k + 1;
      }
      ret := 0;
    }

    /** Hands the caller what the response type at the head of the buffer calls for. */
    method Respond(buf: nat, rxLen: nat, out: array<Byte>) returns (ret: int)
      requires out != rxBuf && rxLen <= out.Length && buf + HEADER + rxLen <= rxBuf.Length
      modifies out
      ensures HandedOver(rxBuf[buf..][..HEADER], rxBuf[buf + HEADER..][..rxLen], ret, old(out[..]), out[..])
    {
      var cmd := rxBuf[buf];
      if cmd == ACK_ERROR {
        ret := 0;
      } else if cmd == GENERIC_SHORT1 || cmd == DCS_SHORT1 {
        if rxLen >= 1 {
          out[0] := rxBuf[buf + 1];
          ret := 1;
        } else {
          ret := -EINVAL;
        }
      } else if cmd == GENERIC_SHORT2 || cmd == DCS_SHORT2 {
        if rxLen >= 2 {
          out[0], out[1] := rxBuf[buf + 1], rxBuf[buf + 2];
          ret := 2;
        } else {
          ret := -EINVAL;
        }
      } else if cmd == GENERIC_LONG || cmd == DCS_LONG {
        for i := 0 to rxLen
          invariant forall n :: 0 <= n < out.Length ==>
            out[n] == if n < i then rxBuf[buf + HEADER + n] else old(out[n])
        {
          out[i] := rxBuf[buf + HEADER + i];
        }
        ret := rxLen;
      } else {
        ret := 0;
      }
    }

    /** A read of at most two bytes: a single four-byte reply, of which only one word is read. The rest
        of the registers is what the stack held. */
    method ReadShort(rxLen: nat, txLen: nat, reply: seq<Byte>, link: Link) returns (ret: int)
      requires |reply| == HEADER && LinkOk(link) && FIFO <= rxBuf.Length
      modifies this, rxBuf
      ensures ret == PassError(link, txLen, 0)
      ensures ret == 0 ==> rxBuf[..FIFO] == reply + link.stack(0)[HEADER..] && sizes == old(sizes) + [rxLen]
      ensures forall i :: FIFO <= i < rxBuf.Length ==> rxBuf[i] == old(rxBuf[i])
    {
      if link.setRet(0) < 2 { return -EINVAL; }
      sizes := sizes + [rxLen];
      ret := link.readRet(0);
      if ret < 0 { return; }
      if ret < txLen { return -ECOMM; }
      var j := DmaRx(0, 4, 0, Fifo(link.stale(0), reply), link.stack(0));
      assert Fifo(link.stale(0), reply)[FIFO - 4..] == reply;
      ret := 0;
    }

    /** The whole read. A long reply arrives complete and in order, whatever its length; the type at the
        head of the first reply decides what the caller gets of it. */
    method CmdRx(out: array<Byte>, rxLen: nat, txLen: nat, p: Panel, shortReply: seq<Byte>, link: Link)
      returns (ret: int)
      requires out != rxBuf && rxLen <= out.Length && Answers(p, rxLen) && LinkOk(link)
      requires |shortReply| == HEADER && Max(FIFO, rxLen + HEADER + CRC) <= rxBuf.Length
      modifies this, rxBuf, out
      ensures forall i :: Max(FIFO, rxLen + HEADER + CRC) <= i < rxBuf.Length ==> rxBuf[i] == old(rxBuf[i])
      // a read that fails returns the error of its first failing pass
      ensures !Through(link, txLen, Passes(rxLen)) ==>
                && out[..] == old(out[..])
                && (exists k: nat :: k < Passes(rxLen) && FailsFirst(link, txLen, k, ret))
      // one that does not tells the panel the size of each pass and hands over what the head calls for
      ensures Through(link, txLen, Passes(rxLen)) ==>
                && sizes == old(sizes) + seq(Passes(rxLen), i requires i >= 0 => PassSize(rxLen, i))
                && HandedOver(Head(p, shortReply, rxLen), Payload(p, link, rxLen), ret, old(out[..]), out[..])
    {
      hide Through, AllPass, PassError, FailsFirst, HandedOver;
      ThroughMeans(link, txLen);
      var buf := 0;
      if rxLen <= 2 {
        ret := ReadShort(rxLen, txLen, shortReply, link);
        if ret != 0 {
          NothingPassed(link, txLen);
          FirstFailure(link, txLen, 0);
          return;
        }
        OnePassed(link, txLen);
        assert rxBuf[..FIFO][..HEADER + rxLen] == shortReply + link.stack(0)[HEADER..HEADER + rxLen];
        assert rxBuf[0..HEADER + rxLen] == rxBuf[..FIFO][..HEADER + rxLen];
      } else {
        var pktSize;
        ret, pktSize := ReadPasses(rxLen, txLen, p, link);
        if ret != 0 {
          ghost var k: nat :| k < PassCount(rxLen) && AllPass(link, txLen, k) && ret == PassError(link, txLen, k);
          FirstFailure(link, txLen, k);
          return;
        }
        // a reply shorter than the first pass sits behind bytes that were never filled
        if pktSize < 10 {
          buf := 10 - rxLen;
        }
      }
      HeadThenPayload(rxBuf[..], buf, Head(p, shortReply, rxLen), Payload(p, link, rxLen));
      assert rxBuf[..][buf..] == rxBuf[buf..] && rxBuf[..][buf + HEADER..] == rxBuf[buf + HEADER..];
      ret := Respond(buf, rxLen, out);
    }
  }
}
