/** The JDI panel driver: what it puts on the wire over enable, disable and blank requests. The
    panel must see its reset and its exit from sleep at most once, and never enter sleep. */
module JdiPanel {

  const POWER_OK: bv8 := 0x38
  const DISPLAY_BIT: bv8 := 0x04
  const SLEEP_BIT: bv8 := 0x10
  const INIT_WRITES := 15
  const SETTLE_WRITES := 4
  const POLLS := 6

  /** What reaches the panel and changes it; status reads are left out. */
  datatype Command =
    | GpioReset
    | InitWrite
    | SettleWrite
    | DisplayOn
    | DisplayOff
    | ExitSleep
    | EnterSleep

  /** The request of a sysfs write to panel_sleep, as parsed. */
  datatype Flag = Parsed(value: bool) | Unparsed(error: int)

  datatype Op = Enable | Disable | SleepStore(flag: Flag)

  function Count(wire: seq<Command>, c: Command): nat {
    if wire == [] then 0
    else Count(wire[..|wire| - 1], c) + if wire[|wire| - 1] == c then 1 else 0
  }

  /** Whether the last display command switched the display off. */
  predicate LastOff(wire: seq<Command>) {
    wire != [] && (
      var c := wire[|wire| - 1];
      c.DisplayOff? || (!c.DisplayOn? && LastOff(wire[..|wire| - 1])))
  }

  function Repeat(c: Command, n: nat): (r: seq<Command>)
    ensures |r| == n
  {
    seq(n, i => c)
  }

  lemma RepeatOnce(c: Command, n: nat)
    ensures Repeat(c, 0) == [] && Repeat(c, n) + [c] == Repeat(c, n + 1)
  {
  }

  const INIT := Repeat(InitWrite, INIT_WRITES)
  const WAKE := [DisplayOn, ExitSleep] + Repeat(SettleWrite, SETTLE_WRITES)

  /** What a first enable puts on the wire: the reset, `i` initialisation writes, `j` commands of the
      wake-up, and `n` more attempts to switch the display on. */
  function FirstEnable(i: nat, j: nat, n: nat): seq<Command>
    requires i <= |INIT| && j <= |WAKE|
  {
    [GpioReset] + INIT[..i] + WAKE[..j] + Repeat(DisplayOn, n)
  }

  lemma {:induction false} CountAppend(a: seq<Command>, b: seq<Command>, c: Command)
    ensures Count(a + b, c) == Count(a, c) + Count(b, c)
  {
    if b == [] {
      assert a + b == a;
    } else {
      CountAppend(a, b[..|b| - 1], c);
      assert (a + b)[..|a + b| - 1] == a + b[..|b| - 1];
    }
  }

  lemma {:induction false} LastOffAppend(a: seq<Command>, b: seq<Command>)
    ensures LastOff(a + b) == if Count(b, DisplayOn) + Count(b, DisplayOff) > 0 then LastOff(b) else LastOff(a)
  {
    if b == [] {
      assert a + b == a;
    } else {
      LastOffAppend(a, b[..|b| - 1]);
      assert (a + b)[..|a + b| - 1] == a + b[..|b| - 1];
    }
  }

  lemma Joined(a: seq<Command>, b: seq<Command>)
    ensures forall c :: Count(a + b, c) == Count(a, c) + Count(b, c)
    ensures LastOff(a + b) == if Count(b, DisplayOn) + Count(b, DisplayOff) > 0 then LastOff(b) else LastOff(a)
  {
    forall c ensures Count(a + b, c) == Count(a, c) + Count(b, c) {
      CountAppend(a, b, c);
    }
    LastOffAppend(a, b);
  }

  lemma {:induction false} CountRepeat(c: Command, n: nat, d: Command)
    ensures Count(Repeat(c, n), d) == if c == d then n else 0
    ensures LastOff(Repeat(c, n)) == (c.DisplayOff? && n > 0)
  {
    if n > 0 {
      CountRepeat(c, n - 1, d);
      assert Repeat(c, n)[..n - 1] == Repeat(c, n - 1);
    }
  }

  lemma CountPair(j: nat, d: Command)
    requires j <= 2
    ensures Count([DisplayOn, ExitSleep][..j], d)
         == (if j >= 1 && d == DisplayOn then 1 else 0) + (if j == 2 && d == ExitSleep then 1 else 0)
    ensures !LastOff([DisplayOn, ExitSleep][..j])
  {
    var pair := [DisplayOn, ExitSleep];
    assert [DisplayOn][..0] == [];
    assert pair[..1] == [DisplayOn] && pair[..0] == [];
    if j == 2 {
      assert pair[..2] == pair && pair[..|pair| - 1] == [DisplayOn];
      assert Count(pair, d) == Count([DisplayOn], d) + if ExitSleep == d then 1 else 0;
      assert LastOff(pair) == LastOff([DisplayOn]);
    }
  }

  lemma CountWake(j: nat, d: Command)
    requires j <= |WAKE| && !d.SettleWrite?
    ensures Count(WAKE[..j], d)
         == (if j >= 1 && d == DisplayOn then 1 else 0) + (if j >= 2 && d == ExitSleep then 1 else 0)
    ensures !LastOff(WAKE[..j])
  {
    var m := if j < 2 then j else 2;
    var pair, rest := [DisplayOn, ExitSleep][..m], Repeat(SettleWrite, j - m);
    assert WAKE[..j] == pair + rest;
    CountPair(m, d);
    Joined(pair, rest);
    CountRepeat(SettleWrite, j - m, d);
    CountRepeat(SettleWrite, j - m, DisplayOn);
    CountRepeat(SettleWrite, j - m, DisplayOff);
  }

  lemma CountFirstEnable(i: nat, j: nat, n: nat, d: Command)
    requires i <= |INIT| && j <= |WAKE| && !d.SettleWrite? && !d.InitWrite?
    ensures Count(FirstEnable(i, j, n), d)
         == (if d == GpioReset then 1 else 0) + (if j >= 1 && d == DisplayOn then 1 else 0)
          + (if j >= 2 && d == ExitSleep then 1 else 0) + (if d == DisplayOn then n else 0)
  {
    var reset, init, wake, more := [GpioReset], INIT[..i], WAKE[..j], Repeat(DisplayOn, n);
    assert init == Repeat(InitWrite, i) && reset[..0] == [];
    Joined(reset, init);
    Joined(reset + init, wake);
    Joined(reset + init + wake, more);
    CountRepeat(InitWrite, i, d);
    CountWake(j, d);
    CountRepeat(DisplayOn, n, d);
  }

  lemma FirstEnableLeavesOn(i: nat, j: nat, n: nat)
    requires i <= |INIT| && j <= |WAKE|
    ensures !LastOff(FirstEnable(i, j, n))
  {
    var reset, init, wake, more := [GpioReset], INIT[..i], WAKE[..j], Repeat(DisplayOn, n);
    assert init == Repeat(InitWrite, i) && reset[..0] == [];
    CountRepeat(InitWrite, i, DisplayOn);
    CountWake(j, DisplayOn);
    CountRepeat(DisplayOn, n, DisplayOn);
    LastOffAppend(reset, init);
    LastOffAppend(reset + init, wake);
    LastOffAppend(reset + init + wake, more);
  }

  /** What a first enable adds to any wire. */
  lemma AfterFirstEnable(wire: seq<Command>, i: nat, j: nat, n: nat)
    requires i <= |INIT| && j <= |WAKE|
    ensures Count(wire + FirstEnable(i, j, n), GpioReset) == Count(wire, GpioReset) + 1
    ensures Count(wire + FirstEnable(i, j, n), ExitSleep) == Count(wire, ExitSleep) + if j >= 2 then 1 else 0
    ensures Count(wire + FirstEnable(i, j, n), EnterSleep) == Count(wire, EnterSleep)
    ensures LastOff(wire + FirstEnable(i, j, n)) == (LastOff(wire) && j == 0 && n == 0)
  {
    CountFirstEnable(i, j, n, GpioReset);
    CountFirstEnable(i, j, n, ExitSleep);
    CountFirstEnable(i, j, n, EnterSleep);
    CountFirstEnable(i, j, n, DisplayOn);
    CountFirstEnable(i, j, n, DisplayOff);
    FirstEnableLeavesOn(i, j, n);
    Joined(wire, FirstEnable(i, j, n));
  }

  /** The next `n` transfers all work. */
  predicate Works(link: seq<int>, n: nat) {
    forall k :: 0 <= k < n && k < |link| ==> link[k] == 0
  }

  function After(link: seq<int>, n: nat): seq<int> {
    if n <= |link| then link[n..] else []
  }

  lemma WorksSplits(link: seq<int>, m: nat, n: nat)
    ensures Works(link, m + n) <==> Works(link, m) && Works(After(link, m), n)
  {
    if Works(link, m) && Works(After(link, m), n) {
      forall k | 0 <= k < m + n && k < |link| ensures link[k] == 0 {
        assert k >= m ==> After(link, m)[k - m] == link[k];
      }
    }
    if Works(link, m + n) {
      forall k | 0 <= k < n && k < |After(link, m)| ensures After(link, m)[k] == 0 {
        assert After(link, m)[k] == link[m + k];
      }
    }
  }

  /** Exit-sleep is among the first `n` commands. */
  predicate Heard(cmds: seq<Command>, n: nat)
    requires n <= |cmds|
  {
    exists k :: 0 <= k < n && cmds[k].ExitSleep?
  }

  lemma HeardGrows(cmds: seq<Command>, n: nat)
    requires n < |cmds|
    ensures Heard(cmds, n + 1) <==> Heard(cmds, n) || cmds[n].ExitSleep?
  {
    if cmds[n].ExitSleep? {
      assert Heard(cmds, n + 1);
    }
    if Heard(cmds, n) {
      var k :| 0 <= k < n && cmds[k].ExitSleep?;
      assert Heard(cmds, n + 1);
    }
  }

  /** Transfers up to and including the first display-on, which is the last one before exit-sleep. */
  const BEFORE_WAKE := 16

  /** The result of the next transfer. */
  function First(link: seq<int>): int {
    if link == [] then 0 else link[0]
  }

  /** What the next successful read of the power mode shows. */
  function Shown(modes: seq<bv8>): bv8 {
    if modes == [] then 0 else modes[0]
  }

  function ModesAfter(link: seq<int>, modes: seq<bv8>): seq<bv8> {
    if First(link) == 0 && modes != [] then modes[1..] else modes
  }

  /** The panel is up: its display is on and it is out of sleep. */
  predicate Up(pm: bv8) {
    pm & 0x14 == 0x14
  }

  /** How many of the polls find the panel not up, before the first one that does. */
  function PollsMissed(link: seq<int>, modes: seq<bv8>, left: nat): (n: nat)
    ensures n <= left
    ensures First(link) == 0 && Up(Shown(modes)) ==> n == 0
    ensures left > 0 && !(First(link) == 0 && Up(Shown(modes))) ==> n > 0
    decreases left
  {
    if left == 0 || (First(link) == 0 && Up(Shown(modes))) then 0
    else 1 + PollsMissed(After(link, 2), ModesAfter(link, modes), left - 1)
  }

  /** What a later enable sends: display-on, and once more if it went out and the panel, asked for its
      power mode, reports anything but 0x38. */
  function Resumption(link: seq<int>, modes: seq<bv8>): seq<Command> {
    if Works(link, 2) && Shown(modes) != 0x38 then [DisplayOn, DisplayOn] else [DisplayOn]
  }

  class Panel {
    var inited: bool
    var asleep: bool
    /** Every command put on the wire so far, whether or not its transfer succeeded. */
    var wire: seq<Command>
    /** Whether the panel has left sleep: an exit-sleep transfer has succeeded. */
    ghost var awake: bool
    /** Results of the transfers still to come; once they run out they succeed. */
    var link: seq<int>
    /** Power modes the panel will report. */
    var modes: seq<bv8>

    constructor (link: seq<int>, modes: seq<bv8>)
      ensures Valid() && wire == [] && !inited && !asleep && this.link == link && this.modes == modes
    {
      inited, asleep, wire, awake := false, false, [], false;
      this.link, this.modes := link, modes;
    }

    /** The reset is sent once, by the first enable, and exit-sleep only after it and at most once;
        `asleep` tells whether the display was last switched off. */
    ghost predicate Valid()
      reads this
    {
      && Count(wire, GpioReset) == (if inited then 1 else 0)
      && Count(wire, ExitSleep) <= Count(wire, GpioReset)
      && Count(wire, EnterSleep) == 0
      && asleep == LastOff(wire)
      && (awake ==> Count(wire, ExitSleep) == 1)
    }

    method Transfer() returns (err: int)
      modifies `link
      ensures err == First(old(link)) && (err == 0 <==> Works(old(link), 1))
      ensures link == After(old(link), 1)
    {
      if link == [] { return 0; }
      err, link := link[0], link[1..];
    }

    /** Sends one command; its failure does not show on the wire. */
    method Send(c: Command) returns (err: int)
      modifies `link, `wire, `awake
      ensures wire == old(wire) + [c]
      ensures err == First(old(link)) && (err == 0 <==> Works(old(link), 1))
      ensures link == After(old(link), 1)
      ensures awake == (old(awake) || (c.ExitSleep? && err == 0))
    {
      wire := wire + [c];
      err := Transfer();
      awake := awake || (c.ExitSleep? && err == 0);
    }

    /** A multi-command context: it ends with the first command whose transfer fails. */
    method SendAll(cmds: seq<Command>) returns (err: int, ghost sent: nat)
      modifies `link, `wire, `awake
      ensures sent <= |cmds| && wire == old(wire) + cmds[..sent] && link == After(old(link), sent)
      ensures err == 0 ==> sent == |cmds| && Works(old(link), sent)
      ensures err != 0 ==> sent > 0 && Works(old(link), sent - 1) && !Works(old(link), sent)
      ensures awake == (old(awake) || Heard(cmds, if err == 0 then sent else sent - 1))
    {
      err, sent := 0, 0;
      var k := 0;
      while k < |cmds| && err == 0
        invariant k == sent <= |cmds|
        invariant wire == old(wire) + cmds[..sent] && link == After(old(link), sent)
        invariant err == 0 ==> Works(old(link), sent)
        invariant err != 0 ==> sent > 0 && Works(old(link), sent - 1) && !Works(old(link), sent)
        invariant awake == (old(awake) || Heard(cmds, if err == 0 then sent else sent - 1))
      {
        WorksSplits(old(link), k, 1);
        HeardGrows(cmds, k);
        err := Send(cmds[k]);
        k, sent := k + 1, sent + 1;
      }
    }

    method PowerMode() returns (err: int, pm: bv8)
      modifies `link, `modes
      ensures link == After(old(link), 1) && err == First(old(link))
      ensures modes == ModesAfter(old(link), old(modes)) && (err == 0 ==> pm == Shown(old(modes)))
    {
      pm := 0;
      err := Transfer();
      if err == 0 && modes != [] {
        pm, modes := modes[0], modes[1..];
      }
    }

    /** Resumes with display-on alone, repeated once if the panel reports something else. */
    method Resume() returns (err: int)
      requires Valid() && inited
      modifies `link, `modes, `wire, `asleep, `awake
      ensures Valid() && !asleep && awake == old(awake)
      ensures wire == old(wire) + Resumption(old(link), old(modes))
      ensures err == 0 <==> Works(old(link), 1) && (|Resumption(old(link), old(modes))| == 1 || Works(old(link), 3))
    {
      hide Count, LastOff;
      Append(wire, DisplayOn);
      Append(wire + [DisplayOn], DisplayOn);
      WorksSplits(link, 1, 1);
      WorksSplits(link, 2, 1);
      err := Send(DisplayOn);
      var ret, pm := PowerMode();
      if ret == 0 && pm != POWER_OK && err == 0 {
        err := Send(DisplayOn);
        var again, ignored := PowerMode();
        assert old(wire) + [DisplayOn] + [DisplayOn] == old(wire) + [DisplayOn, DisplayOn];
      }
      asleep := false;
    }

    lemma Append(was: seq<Command>, c: Command)
      ensures forall d :: Count(was + [c], d) == Count(was, d) + if d == c then 1 else 0
      ensures LastOff(was + [c]) == (c.DisplayOff? || (!c.DisplayOn? && LastOff(was)))
    {
      assert (was + [c])[..|was|] == was;
    }

    /** Up to six looks at the power mode, each followed by another display-on until it is right. */
    method Poll() returns (ghost n: nat)
      modifies `link, `modes, `wire, `awake
      ensures n == PollsMissed(old(link), old(modes), 6)
      ensures wire == old(wire) + Repeat(DisplayOn, n) && awake == old(awake)
    {
      hide Repeat, Works, Up;
      n := 0;
      var i := 0;
      RepeatOnce(DisplayOn, 0);
      assert wire == old(wire) + Repeat(DisplayOn, 0);
      while i < POLLS
        invariant 0 <= n == i <= POLLS
        invariant PollsMissed(old(link), old(modes), 6) == n + PollsMissed(link, modes, POLLS - n)
        invariant wire == old(wire) + Repeat(DisplayOn, n) && awake == old(awake)
      {
        ghost var left := link;
        var ret, pm := PowerMode();
        BothBits(pm);
        if ret == 0 && pm & DISPLAY_BIT != 0 && pm & SLEEP_BIT != 0 { break; }
        var ignored := Send(DisplayOn);
        assert link == After(left, 2);
        RepeatOnce(DisplayOn, n);
        n := n + 1;
        i := i + 1;
      }
    }

    lemma BothBits(pm: bv8)
      ensures pm & DISPLAY_BIT != 0 && pm & SLEEP_BIT != 0 <==> Up(pm)
    {
    }

    /** How far a wake-up gets, and what it takes for exit-sleep to be sent and to be heard. */
    lemma WakeReaches(link: seq<int>, err: int, j: nat)
      requires j <= |WAKE|
      requires err == 0 ==> j == |WAKE| && Works(link, j)
      requires err != 0 ==> j > 0 && Works(link, j - 1) && !Works(link, j)
      ensures j >= 2 <==> Works(link, 1)
      ensures Heard(WAKE, if err == 0 then j else j - 1) <==> Works(link, 2)
      ensures err == 0 <==> Works(link, |WAKE|)
    {
      assert WAKE[1].ExitSleep? && forall k :: 0 <= k < |WAKE| && k != 1 ==> !WAKE[k].ExitSleep?;
    }

    /** Reset, initialise and wake. An initialisation error ends it there, with `inited` set. Exit-sleep
        is sent exactly if all sixteen transfers before it work, and heard exactly if it works too. */
    method Start() returns (err: int, ghost i: nat, ghost j: nat, ghost n: nat)
      requires Valid() && !inited
      modifies this
      ensures Valid() && inited && i <= |INIT| && j <= |WAKE|
      ensures wire == old(wire) + FirstEnable(i, j, n)
      ensures j > 0 ==> i == |INIT| && !asleep
      ensures j == 0 ==> n == 0 && err != 0
      ensures Count(wire, ExitSleep) == if Works(old(link), BEFORE_WAKE) then 1 else 0
      ensures awake <==> Works(old(link), BEFORE_WAKE + 1)
      ensures err == 0 <==> Works(old(link), 21)
      ensures j > 0 <==> Works(old(link), 15)
      // display-on is repeated until the panel is up, six times at most
      ensures n == if j > 0 then PollsMissed(After(old(link), 15 + j), old(modes), 6) else 0
      ensures asleep == (old(asleep) && !Works(old(link), 15))
    {
      hide Count, LastOff, PollsMissed;
      i, j, n := 0, 0, 0;
      NothingWoken();
      wire := wire + [GpioReset];
      inited := true;
      err, i := SendAll(INIT);
      WorksSplits(old(link), |INIT|, 1);
      WorksSplits(old(link), |INIT|, 2);
      WorksSplits(old(link), |INIT|, |WAKE|);
      if err == 0 {
        ghost var left := link;
        err, j := SendAll(WAKE);
        WakeReaches(left, err, j);
        n := Poll();
        asleep := false;
      }
      assert wire == old(wire) + FirstEnable(i, j, n);
      AfterFirstEnable(old(wire), i, j, n);
    }

    lemma NothingWoken()
      requires Valid() && !inited
      ensures !awake && Count(wire, ExitSleep) == 0
    {
    }

    /** The first enable resets, initialises and wakes the panel; every later one only switches the
        display on. */
    method Enable() returns (err: int)
      requires Valid()
      modifies this
      ensures Valid() && inited
      ensures old(inited) ==> !asleep && awake == old(awake) && Count(wire, ExitSleep) == Count(old(wire), ExitSleep)
      ensures old(inited) ==> wire == old(wire) + Resumption(old(link), old(modes))
      ensures !old(inited) ==> exists i: nat, j: nat, n: nat ::
                i <= |INIT| && j <= |WAKE| && (j > 0 ==> i == |INIT|)
                && (n == if j > 0 then PollsMissed(After(old(link), 15 + j), old(modes), 6) else 0)
                && wire == old(wire) + FirstEnable(i, j, n)
      ensures !old(inited) ==> Count(wire, ExitSleep) == if Works(old(link), BEFORE_WAKE) then 1 else 0
      ensures !old(inited) ==> (awake <==> Works(old(link), BEFORE_WAKE + 1))
      ensures !old(inited) ==> (err == 0 <==> Works(old(link), 21))
      ensures asleep == (old(asleep) && !old(inited) && !Works(old(link), 15))
    {
      hide LastOff, Works;
      if inited {
        Append(wire, DisplayOn);
        Append(wire + [DisplayOn], DisplayOn);
        assert wire + [DisplayOn, DisplayOn] == wire + [DisplayOn] + [DisplayOn];
        err := Resume();
        return;
      }
      ghost var i, j, n;
      err, i, j, n := Start();
    }

    method Disable() returns (err: int)
      requires Valid()
      modifies `link, `wire, `asleep, `awake
      ensures Valid() && asleep && wire == old(wire) + [DisplayOff] && awake == old(awake)
      ensures err == First(old(link))
    {
      Append(wire, DisplayOff);
      err := Send(DisplayOff);
      asleep := true;
    }

    /** Blanking and unblanking; asking for the present state sends nothing. */
    method SetDisplay(on: bool) returns (err: int)
      requires Valid()
      modifies `link, `wire, `asleep, `awake
      ensures Valid() && asleep == !on && awake == old(awake)
      ensures err == if on == !old(asleep) then 0 else First(old(link))
      ensures wire == if on == !old(asleep) then old(wire)
                      else old(wire) + [if on then DisplayOn else DisplayOff]
    {
      if on == !asleep { return 0; }
      Append(wire, if on then DisplayOn else DisplayOff);
      if on {
        err := Send(DisplayOn);
        asleep := false;
        return;
      }
      err := Send(DisplayOff);
      asleep := true;
    }

    method SleepStore(flag: Flag) returns (err: int)
      requires Valid()
      modifies `link, `wire, `asleep, `awake
      ensures Valid() && awake == old(awake)
      ensures flag.Unparsed? ==> wire == old(wire) && asleep == old(asleep) && err == flag.error
      ensures flag.Parsed? ==> asleep == flag.value
      ensures flag.Parsed? ==> err == if flag.value == old(asleep) then 0 else First(old(link))
      ensures flag.Parsed? ==>
                wire == if flag.value == old(asleep) then old(wire)
                        else old(wire) + [if flag.value then DisplayOff else DisplayOn]
    {
      if flag.Unparsed? { return flag.error; }
      if flag.value == asleep { return 0; }
      err := SetDisplay(!flag.value);
    }

    /** A request does what it is for: an enable switches on, first after the whole initialisation and
        later with display-on alone; a disable switches off; a sysfs write switches to what it asks. */
    method Handle(op: Op)
      requires Valid()
      modifies this
      ensures Valid() && inited == (old(inited) || op.Enable?)
      ensures old(inited) ==> awake == old(awake) && Count(wire, ExitSleep) == Count(old(wire), ExitSleep)
      ensures op.Enable? && old(inited) ==> !asleep && wire == old(wire) + Resumption(old(link), old(modes))
      ensures op.Enable? && !old(inited) ==>
                && asleep == (old(asleep) && !Works(old(link), 15))
                && Count(wire, ExitSleep) == (if Works(old(link), 16) then 1 else 0)
                && (awake <==> Works(old(link), 17))
      ensures op.Disable? ==> asleep && wire == old(wire) + [DisplayOff]
      ensures op.SleepStore? && op.flag.Unparsed? ==> asleep == old(asleep) && wire == old(wire)
      ensures op.SleepStore? && op.flag.Parsed? ==>
                && asleep == op.flag.value
                && wire == if asleep == old(asleep) then old(wire)
                           else old(wire) + [if asleep then DisplayOff else DisplayOn]
    {
      Append(wire, DisplayOn);
      Append(wire, DisplayOff);
      var ignored;
      match op {
        case Enable => ignored := Enable();
        case Disable => ignored := Disable();
        case SleepStore(flag) => ignored := SleepStore(flag);
      }
    }

    /** Over any run of requests and transfer failures: one reset, at most one exit from sleep, and
        never an entry into it. Once the first enable is over, whether the panel ever leaves sleep
        is settled, and the display is on or off as last asked. */
    method Run(ops: seq<Op>)
      requires Valid()
      modifies this
      ensures Valid() && Count(wire, GpioReset) <= 1 && Count(wire, ExitSleep) <= 1
      ensures Count(wire, EnterSleep) == 0
      ensures inited == (old(inited) || exists k :: 0 <= k < |ops| && ops[k].Enable?)
      ensures old(inited) ==> awake == old(awake) && Count(wire, ExitSleep) == Count(old(wire), ExitSleep)
      ensures old(inited) ==> asleep == AskedOff(ops, old(asleep))
    {
      var k := 0;
      while k < |ops|
        invariant 0 <= k <= |ops| && Valid()
        invariant inited == (old(inited) || exists i :: 0 <= i < k && ops[i].Enable?)
        invariant old(inited) ==> awake == old(awake) && Count(wire, ExitSleep) == Count(old(wire), ExitSleep)
        invariant old(inited) ==> asleep == AskedOff(ops[..k], old(asleep))
      {
        assert ops[..k + 1][..k] == ops[..k];
        Handle(ops[k]);
        k := k + 1;
      }
      assert ops[..k] == ops;
    }
  }

  /** Whether the display was last asked to be off. */
  function AskedOff(ops: seq<Op>, was: bool): bool {
    if ops == [] then was
    else
      match ops[|ops| - 1]
      case Enable => false
      case Disable => true
      case SleepStore(Parsed(off)) => off
      case _ => AskedOff(ops[..|ops| - 1], was)
  }

  /** The first enable and everything after it: exit-sleep is on the wire exactly if the sixteen
      transfers before it worked, and the panel is awake exactly if the seventeenth did too. */
  method Life(link: seq<int>, modes: seq<bv8>, ops: seq<Op>) returns (p: Panel)
    ensures fresh(p) && p.Valid() && p.inited && p.asleep == AskedOff(ops, false)
    ensures Count(p.wire, ExitSleep) == if Works(link, 16) then 1 else 0
    ensures p.awake <==> Works(link, 17)
  {
    p := new Panel(link, modes);
    var err := p.Enable();
    p.Run(ops);
  }

  /** Any failure of the initialisation, or of the display-on after it, leaves exit-sleep unsent
      whatever follows. */
  method FailedInitNeverWakes(link: seq<int>, modes: seq<bv8>, ops: seq<Op>) returns (p: Panel)
    requires exists k :: 0 <= k < 16 && k < |link| && link[k] != 0
    ensures fresh(p) && p.Valid() && p.inited && !p.awake && Count(p.wire, ExitSleep) == 0
  {
    p := Life(link, modes, ops);
  }

  /** So does a failure of exit-sleep itself: it has been sent, and is never sent again. */
  method FailedExitSleepIsNotRepeated(link: seq<int>, modes: seq<bv8>, ops: seq<Op>) returns (p: Panel)
    requires |link| > 16 && link[16] != 0 && Works(link, 16)
    ensures fresh(p) && p.Valid() && p.inited && !p.awake && Count(p.wire, ExitSleep) == 1
  {
    p := Life(link, modes, ops);
  }
}
