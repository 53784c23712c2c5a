/** The join script the HUD runs: what its exit codes promise about the network, for every way the
    commands it runs can turn out. */
module ConnectScript {
  import opened WifiFlow
  import FieldSplit
  import WifiState
  import WifiRuns

  /** A saved profile for the SSID, as the script looks it up. */
  datatype Profile = Profile(keyMgmt: string, flags: string, psk: string)

  /** What the attempt log would show so far. */
  datatype Log = Log(mismatch: bool, secrets: bool, notFound: bool, timeout: bool, noDevice: bool, dhcp: bool)

  /** How one command turns out, and what it adds to the log. */
  datatype Result = Result(ok: bool, log: Log)

  /** What the script does, in order. */
  datatype Act =
    | CheckLive(up: bool)
    | ActivateSaved(profile: Profile, psk: string, ok: bool)
    | ActivateNew(psk: string, ok: bool)
    | JoinDevice(psk: string, ok: bool)
    | ModifyProfile(keyMgmt: string)
    | AddProfile(keyMgmt: string)
    | DeleteProfiles
    | Disconnect

  /** What a live check gets to see: whether the device is connected, and the broadcast names of the
      networks in use. */
  datatype Look = Look(connected: bool, inUse: seq<string>)

  /** The second field of a line, for a reader that knows separators but no escapes. */
  function UpToColon(s: string): string {
    if s == "" || s[0] == ':' then "" else [s[0]] + UpToColon(s[1..])
  }

  /** The name under which the check sees a network: nmcli escapes it, the check splits plainly. */
  function SeenAs(name: string): string {
    UpToColon(FieldSplit.Escape(name))
  }

  /** The awk at hand: how it reads a name it is handed as a variable, which texts look like numbers
      to it, and how it compares two texts. */
  datatype Awk = Awk(read: string -> string, numeral: string -> bool, same: (string, string) -> bool)

  /** Reading processes backslash escapes, each of them to no more characters than it has, and leaves
      every other character. Texts are compared as such unless both look like numbers. */
  ghost predicate IsAwk(awk: Awk) {
    && (forall s: string :: |awk.read(s)| <= |s| && ('\\' !in s ==> awk.read(s) == s))
    && (forall s: string :: ':' !in awk.read(s) ==> ':' !in s)
    && (forall s: string :: awk.numeral(s) ==> '\\' !in s && ':' !in s)
    && (forall a: string, b: string :: !(awk.numeral(a) && awk.numeral(b)) ==> (awk.same(a, b) <==> a == b))
  }

  /** The check takes the network `name` for the network sought. */
  predicate Sees(awk: Awk, name: string, ssid: string) {
    awk.same(SeenAs(name), awk.read(ssid))
  }

  predicate Live(awk: Awk, l: Look, ssid: string) {
    l.connected && exists k :: 0 <= k < |l.inUse| && Sees(awk, l.inUse[k], ssid)
  }

  /** A name with nothing to escape in it. */
  predicate Plain(name: string) {
    ':' !in name && '\\' !in name
  }

  lemma {:induction false} PlainlySeen(name: string)
    ensures Plain(name) <==> FieldSplit.Escape(name) == name
    ensures Plain(name) <==> |FieldSplit.Escape(name)| == |name|
    ensures |FieldSplit.Escape(name)| >= |name|
    ensures Plain(name) ==> SeenAs(name) == name
    ensures !Plain(name) ==> '\\' in SeenAs(name)
  {
    if name != "" {
      PlainlySeen(name[1..]);
      assert name == [name[0]] + name[1..];
      if name[0] == ':' || name[0] == '\\' {
        assert FieldSplit.Escape(name)[0] == '\\' && SeenAs(name)[0] == '\\';
      } else {
        assert FieldSplit.Escape(name)[1..] == FieldSplit.Escape(name[1..]);
        assert SeenAs(name) == [name[0]] + SeenAs(name[1..]);
      }
    }
  }

  lemma {:induction false} SeenHasNoColon(s: string)
    ensures ':' !in UpToColon(s)
    ensures |UpToColon(s)| == |s| <==> ':' !in s
  {
    if s != "" && s[0] != ':' {
      SeenHasNoColon(s[1..]);
      assert s == [s[0]] + s[1..];
    }
  }

  lemma {:induction false} EscapeKeepsColons(s: string)
    ensures ':' !in s ==> ':' !in FieldSplit.Escape(s)
  {
    if s != "" {
      EscapeKeepsColons(s[1..]);
    }
  }

  /** A network with something to escape in its name is not seen under it. */
  lemma EscapedIsUnseen(name: string, awk: Awk)
    requires IsAwk(awk) && !Plain(name)
    ensures !Sees(awk, name, name)
  {
    PlainlySeen(name);
    SeenHasNoColon(FieldSplit.Escape(name));
    EscapeKeepsColons(name);
    assert awk.same(SeenAs(name), awk.read(name)) <==> SeenAs(name) == awk.read(name);
    if ':' !in name {
      assert |SeenAs(name)| == |FieldSplit.Escape(name)| > |name| >= |awk.read(name)|;
    }
  }

  /** A network is found under its own name exactly if nmcli has nothing to escape in it and the name,
      should it look like a number, is one that equals itself. */
  lemma SeenUnderOwnName(name: string, awk: Awk)
    requires IsAwk(awk)
    ensures Sees(awk, name, name) <==> FieldSplit.Escape(name) == name && awk.same(name, name)
    ensures !awk.numeral(name) ==> awk.same(name, name)
  {
    PlainlySeen(name);
    if !Plain(name) {
      EscapedIsUnseen(name, awk);
    }
  }

  /** Another network is taken for the one sought only if both names look like numbers and are equal as
      such, or the name sought has a backslash in it. */
  lemma MistakenOnlyFor(name: string, ssid: string, awk: Awk)
    requires IsAwk(awk) && Sees(awk, name, ssid) && name != ssid
    ensures (awk.numeral(name) && awk.numeral(ssid) && awk.same(name, ssid)) || '\\' in ssid
  {
    if '\\' !in ssid {
      PlainlySeen(name);
      assert awk.read(ssid) == ssid;
      assert !(awk.numeral(SeenAs(name)) && awk.numeral(ssid)) ==> SeenAs(name) == ssid;
    }
  }

  lemma CutAtColon()
    ensures SeenAs("a:b") == "a\\" && Plain("100")
  {
    assert FieldSplit.Escape(":b") == "\\:b";
    assert FieldSplit.Escape("a:b") == "a\\:b";
  }

  /** Both happen. */
  lemma MistakenNames(awk: Awk)
    requires IsAwk(awk) && awk.same("100", "1e2") && awk.read("a\\\\") == "a\\"
    ensures Sees(awk, "100", "1e2") && Sees(awk, "a:b", "a\\\\")
  {
    hide SeenAs;
    CutAtColon();
    PlainlySeen("100");
    assert awk.read("1e2") == "1e2";
    assert !awk.numeral("a\\");
  }

  const CLEAN := Log(false, false, false, false, false, false)

  function Merge(a: Log, b: Log): Log {
    Log(a.mismatch || b.mismatch, a.secrets || b.secrets, a.notFound || b.notFound,
        a.timeout || b.timeout, a.noDevice || b.noDevice, a.dhcp || b.dhcp)
  }

  predicate IsOpen(sec: string) {
    sec in ["", "--", "none", "None", "OPEN", "Open"]
  }

  predicate IsEnterprise(sec: string) {
    Contains(sec, "802.1") || Contains(sec, "EAP") || Contains(sec, "Enterprise") || Contains(sec, "enterprise")
  }

  function KeyMgmt(sec: string): string {
    if !(Contains(sec, "SAE") || Contains(sec, "WPA3")) then "wpa-psk"
    else if Contains(sec, "WPA2") || Contains(sec, "WPA1") || Contains(sec, "PSK") then "wpa-psk"
    else "sae"
  }

  /** The key management of a new profile: that of WPA2 wherever the network offers it. */
  lemma KeysOf(sec: string)
    ensures Contains(sec, "WPA2") || Contains(sec, "WPA1") || Contains(sec, "PSK") ==> KeyMgmt(sec) == "wpa-psk"
    ensures !Contains(sec, "SAE") && !Contains(sec, "WPA3") ==> KeyMgmt(sec) == "wpa-psk"
    ensures KeyMgmt(sec) != "wpa-psk" ==> KeyMgmt(sec) == "sae" && (Contains(sec, "SAE") || Contains(sec, "WPA3"))
  {
  }

  predicate OpenProfile(p: Profile) {
    p.keyMgmt in ["", "none", "None"]
  }

  /** Agent-owned or unsaved secrets: without an agent such a profile cannot be activated as is. */
  predicate NeedsAgent(p: Profile) {
    p.flags in ["1", "0x1", "2", "0x2"]
  }

  /** Words that lack the first letter of every phrase the HUD looks for. */
  predicate Plainspoken(words: string) {
    'N' !in words && 'W' !in words && 'p' !in words && '已' !in words && '密' !in words
  }

  lemma SaysNothing(words: string)
    requires Plainspoken(words)
    ensures !Contains(words, "已连接") && !Contains(words, "NEED_PASSWORD") && !Contains(words, "密码不对")
    ensures !Contains(words, "WRONG_PASSWORD") && !Contains(words, "psk mismatch")
  {
    LacksFirst(words, "已连接");
    LacksFirst(words, "NEED_PASSWORD");
    LacksFirst(words, "密码不对");
    LacksFirst(words, "WRONG_PASSWORD");
    LacksFirst(words, "psk mismatch");
  }

  /** A saved profile is activated only with what it can be joined by. */
  predicate Sensible(a: Act) {
    && !a.Disconnect?
    && (a.ActivateSaved? && a.psk == "" ==> OpenProfile(a.profile) || (a.profile.psk == "" && !NeedsAgent(a.profile)))
  }

  /** Live checks before the end all failed; the last act, if it is a live check, may have held. */
  ghost predicate Searching(trace: seq<Act>) {
    forall k :: 0 <= k < |trace| ==> Sensible(trace[k]) && trace[k] != CheckLive(true)
  }

  ghost predicate EndsLive(trace: seq<Act>) {
    && trace != [] && trace[|trace| - 1] == CheckLive(true)
    && Sensible(trace[|trace| - 1]) && Searching(trace[..|trace| - 1])
  }

  // ---------------------------------------------------------------- traces

  function Checks(trace: seq<Act>): nat {
    if trace == [] then 0
    else Checks(trace[..|trace| - 1]) + if trace[|trace| - 1].CheckLive? then 1 else 0
  }

  function Commands(trace: seq<Act>): nat {
    if trace == [] then 0
    else Commands(trace[..|trace| - 1]) + if trace[|trace| - 1].CheckLive? then 0 else 1
  }

  lemma ChecksGrow(trace: seq<Act>, a: Act)
    ensures Checks(trace + [a]) == Checks(trace) + if a.CheckLive? then 1 else 0
    ensures Commands(trace + [a]) == Commands(trace) + if a.CheckLive? then 0 else 1
  {
    assert (trace + [a])[..|trace|] == trace;
  }

  /** A command as it turned out. */
  function Outcome(a: Act, ok: bool): Act {
    match a
    case ActivateSaved(p, psk, _) => ActivateSaved(p, psk, ok)
    case ActivateNew(psk, _) => ActivateNew(psk, ok)
    case JoinDevice(psk, _) => JoinDevice(psk, ok)
    case _ => a
  }

  predicate Gives(a: Act) {
    (a.ActivateSaved? || a.ActivateNew? || a.JoinDevice?) && a.psk != ""
  }

  /** n live checks that fail. */
  function Fails(n: nat): (t: seq<Act>)
    ensures |t| == n && forall k :: 0 <= k < n ==> t[k] == CheckLive(false)
  {
    seq(n, _ => CheckLive(false))
  }

  lemma FailsGrow(n: nat)
    ensures Fails(0) == [] && Fails(n) + [CheckLive(false)] == Fails(n + 1)
  {
  }

  /** An activation and, if it worked, all the checks there is time for, failing. */
  function Tried(a: Act, tries: nat): seq<Act>
    requires a.ActivateSaved? || a.ActivateNew?
  {
    [a] + if a.ok then Fails(tries + 1) else []
  }

  /** What a saved profile can be activated with, if it can be at all. */
  predicate Usable(p: Profile) {
    OpenProfile(p) || p.psk != "" || !NeedsAgent(p)
  }

  function Activation(p: Profile, ok: bool): Act {
    ActivateSaved(p, if OpenProfile(p) then "" else p.psk, ok)
  }

  /** All of these profiles tried without success, one after the other. */
  function SavedTried(ps: seq<Profile>, oks: seq<bool>, tries: nat): seq<Act>
    requires |oks| == |ps|
  {
    if ps == [] then []
    else
      var n := |ps| - 1;
      SavedTried(ps[..n], oks[..n], tries) + if Usable(ps[n]) then Tried(Activation(ps[n], oks[n]), tries) else []
  }

  lemma SavedGrow(ps: seq<Profile>, oks: seq<bool>, tries: nat, p: Profile, ok: bool)
    requires |oks| == |ps|
    ensures SavedTried(ps + [p], oks + [ok], tries)
         == SavedTried(ps, oks, tries) + if Usable(p) then Tried(Activation(p, ok), tries) else []
  {
    assert (ps + [p])[..|ps|] == ps && (oks + [ok])[..|ps|] == oks;
  }

  const NEED_PASSWORD := "NEED_PASSWORD"
  const NO_NAME := "未指定网络名称"
  const NO_NMCLI := "未找到 nmcli"

  lemma RefusalsArePlain()
    ensures Plainspoken(NO_NAME) && Plainspoken(NO_NMCLI)
  {
  }

  lemma CutContainsNoMore(s: string, t: string, cut: nat)
    requires cut <= |s| && Contains(s[..cut], t)
    ensures Contains(s, t)
  {
    var i: nat :| i <= cut && OccursAt(s[..cut], t, i);
    assert s[i..i + |t|] == s[..cut][i..i + |t|];
    assert OccursAt(s, t, i);
  }

  class Script {
    const ssid: string
    const pass: string
    const sec: string
    const tries: nat
    const saved: seq<Profile>
    /** How the awk at hand reads the name the checks look for. */
    const awk: Awk
    /** How the commands and the live checks turn out; past the end they fail. */
    const results: seq<Result>
    const looks: seq<Look>
    var gavePsk: bool
    var attempt: Log
    var ran: nat
    var looked: nat
    var trace: seq<Act>

    constructor (ssid: string, pass: string, sec: string, tries: nat, saved: seq<Profile>,
                 awk: Awk, results: seq<Result>, looks: seq<Look>)
      ensures this.ssid == ssid && this.pass == pass && this.sec == sec && this.tries == tries
      ensures this.saved == saved && this.awk == awk && this.results == results && this.looks == looks
      ensures Recording() && !gavePsk && trace == [] && (pass == "" ==> Valid())
    {
      this.ssid, this.pass, this.sec, this.tries, this.saved := ssid, pass, sec, tries, saved;
      this.awk, this.results, this.looks := awk, results, looks;
      gavePsk, attempt, ran, looked, trace := false, CLEAN, 0, 0, [];
    }

    predicate Ok(n: nat) {
      n < |results| && results[n].ok
    }

    /** The n-th live check would see the network. */
    predicate LiveAt(n: nat) {
      n < |looks| && Live(awk, looks[n], ssid)
    }

    /** The trace tells how its commands and checks turned out. */
    ghost predicate Recorded(t: seq<Act>) {
      forall i :: 0 <= i < |t| ==>
        match t[i]
        case CheckLive(up) => up == LiveAt(Checks(t[..i]))
        case ActivateSaved(_, _, ok) => ok == Ok(Commands(t[..i]))
        case ActivateNew(_, ok) => ok == Ok(Commands(t[..i]))
        case JoinDevice(_, ok) => ok == Ok(Commands(t[..i]))
        case _ => true
    }

    /** Some output of the first n commands has what `has` looks for. */
    ghost predicate Seen(n: nat, has: Log -> bool) {
      exists k :: 0 <= k < n && k < |results| && has(results[k].log)
    }

    /** The log is the outputs of the commands run so far. */
    ghost predicate Logged()
      reads `attempt, `ran
    {
      && (attempt.mismatch <==> Seen(ran, (l: Log) => l.mismatch))
      && (attempt.secrets <==> Seen(ran, (l: Log) => l.secrets))
      && (attempt.notFound <==> Seen(ran, (l: Log) => l.notFound))
      && (attempt.timeout <==> Seen(ran, (l: Log) => l.timeout))
      && (attempt.noDevice <==> Seen(ran, (l: Log) => l.noDevice))
      && (attempt.dhcp <==> Seen(ran, (l: Log) => l.dhcp))
    }

    /** A password was given: the one of the join, or that of a saved profile. */
    ghost predicate Given(t: seq<Act>) {
      pass != "" || exists k :: 0 <= k < |t| && Gives(t[k])
    }

    /** The log so far blames a password: a mismatch, or secrets asked for although one was given. */
    ghost predicate Evidence(t: seq<Act>) {
      Seen(Commands(t), (l: Log) => l.mismatch) || (Given(t) && Seen(Commands(t), (l: Log) => l.secrets))
    }

    ghost predicate Recording()
      reads `attempt, `ran, `looked, `trace
    {
      ran == Commands(trace) && looked == Checks(trace) && Recorded(trace) && Logged() && Searching(trace)
    }

    ghost predicate Valid()
      reads this
    {
      Recording() && (gavePsk <==> Given(trace))
    }

    lemma RecordGrows(t: seq<Act>, a: Act)
      requires Recorded(t)
      requires match a
               case CheckLive(up) => up == LiveAt(Checks(t))
               case ActivateSaved(_, _, ok) => ok == Ok(Commands(t))
               case ActivateNew(_, ok) => ok == Ok(Commands(t))
               case JoinDevice(_, ok) => ok == Ok(Commands(t))
               case _ => true
      ensures Recorded(t + [a])
    {
      var r := t + [a];
      forall i | 0 <= i < |t| ensures r[..i] == t[..i] && r[i] == t[i] {
      }
      assert r[..|t|] == t && r[|t|] == a;
    }

    lemma GivenGrows(t: seq<Act>, a: Act)
      ensures Given(t + [a]) <==> Given(t) || Gives(a)
    {
      var r := t + [a];
      if k :| 0 <= k < |t| && Gives(t[k]) {
        assert Gives(r[k]);
      }
      if Gives(a) {
        assert Gives(r[|t|]);
      }
    }

    lemma LogGrows(has: Log -> bool)
      ensures forall n: nat :: Seen(n + 1, has) <==> Seen(n, has) || (n < |results| && has(results[n].log))
    {
      forall n: nat ensures Seen(n + 1, has) <==> Seen(n, has) || (n < |results| && has(results[n].log)) {
        if n < |results| && has(results[n].log) {
          assert Seen(n + 1, has);
        }
      }
    }

    /** Runs a command; its output goes to the attempt log. */
    method Command(a: Act) returns (ok: bool)
      requires Recording() && Sensible(a) && !a.CheckLive?
      modifies `attempt, `trace, `ran
      ensures Recording() && ok == Ok(old(ran)) && trace == old(trace) + [Outcome(a, ok)]
      ensures Given(trace) <==> Given(old(trace)) || Gives(a)
    {
      hide Checks, Commands, Seen;
      LogGrows((l: Log) => l.mismatch);
      LogGrows((l: Log) => l.secrets);
      LogGrows((l: Log) => l.notFound);
      LogGrows((l: Log) => l.timeout);
      LogGrows((l: Log) => l.noDevice);
      LogGrows((l: Log) => l.dhcp);
      ok := Ok(ran);
      if ran < |results| {
        attempt := Merge(attempt, results[ran].log);
      }
      ran := ran + 1;
      ChecksGrow(trace, Outcome(a, ok));
      RecordGrows(trace, Outcome(a, ok));
      GivenGrows(trace, Outcome(a, ok));
      trace := trace + [Outcome(a, ok)];
    }

    /** The device must be connected and a network in use be seen under the name. */
    method LiveOk() returns (up: bool)
      requires Recording()
      modifies `trace, `looked
      ensures up == LiveAt(old(looked)) && trace == old(trace) + [CheckLive(up)] && looked == old(looked) + 1
      ensures if up then Found() else Recording() && (old(Valid()) ==> Valid())
    {
      hide Checks, Commands, Seen;
      up := looked < |looks| && Live(awk, looks[looked], ssid);
      looked := looked + 1;
      ChecksGrow(trace, CheckLive(up));
      RecordGrows(trace, CheckLive(up));
      GivenGrows(trace, CheckLive(up));
      trace := trace + [CheckLive(up)];
      assert trace[..|trace| - 1] == old(trace);
    }

    /** The join has just been found to be live. */
    ghost predicate Found()
      reads this
    {
      EndsLive(trace) && Recorded(trace)
    }

    /** Checks once, and then again after each of the waits, as long as the checks fail: `tries` + 1
        checks at most. */
    method WaitLive() returns (up: bool)
      requires Valid()
      modifies `trace, `looked
      ensures up ==> Found() && exists n: nat :: n <= tries && trace == old(trace) + Fails(n) + [CheckLive(true)]
      ensures !up ==> Valid() && trace == old(trace) + Fails(tries + 1)
      ensures LiveAt(old(looked)) ==> up && trace == old(trace) + [CheckLive(true)]
    {
      hide Recording, Given, Found, LiveAt;
      up := false;
      var i := 0;
      FailsGrow(0);
      assert trace == old(trace) + Fails(0);
      while i <= tries
        invariant 0 <= i <= tries + 1
        invariant Valid() && trace == old(trace) + Fails(i)
        invariant if i == 0 then looked == old(looked) else !LiveAt(old(looked))
      {
        FailsGrow(i);
        up := LiveOk();
        if up {
          assert trace == old(trace) + Fails(i) + [CheckLive(true)];
          assert i == 0 ==> trace == old(trace) + [CheckLive(true)];
          return;
        }
        i := i + 1;
        if tries == 0 { break; }
      }
      up := false;
    }

    predicate SeesWrongPw()
      reads this
    {
      attempt.mismatch || (gavePsk && attempt.secrets)
    }

    lemma SeesEvidence()
      requires Valid()
      ensures SeesWrongPw() <==> Evidence(trace)
    {
    }

    /** An activation that worked was followed by a check that held, after at most `tries` that did not. */
    ghost predicate Reached(t: seq<Act>, before: seq<Act>, a: Act) {
      exists n: nat :: n <= tries && t == before + [a] + Fails(n) + [CheckLive(true)]
    }

    lemma HeldAfter(t: seq<Act>, before: seq<Act>, a: Act)
      requires t == before + [a]
      ensures forall n: nat :: n <= tries ==> Reached(t + Fails(n) + [CheckLive(true)], before, a)
    {
    }

    lemma ChecksSayNothing(t: seq<Act>, n: nat)
      ensures Evidence(t + Fails(n)) <==> Evidence(t)
    {
      hide Seen;
      if n == 0 {
        assert t + Fails(0) == t;
      } else {
        ChecksSayNothing(t, n - 1);
        FailsGrow(n - 1);
        assert t + Fails(n) == t + Fails(n - 1) + [CheckLive(false)];
        ChecksGrow(t + Fails(n - 1), CheckLive(false));
        GivenGrows(t + Fails(n - 1), CheckLive(false));
      }
    }

    /** Activates a profile; a password, once given, stays known to the wrong-password test. */
    method UpWithPsk(a: Act) returns (ok: bool)
      requires Valid() && Sensible(a) && (a.ActivateSaved? || a.ActivateNew?)
      modifies `attempt, `trace, `ran, `gavePsk
      ensures Valid() && ok == Ok(old(ran)) && trace == old(trace) + [Outcome(a, ok)]
    {
      hide Given;
      if a.psk != "" {
        gavePsk := true;
      }
      ok := Command(a);
    }

    /** ... and waits for it to be live. */
    method UpAndLive(a: Act) returns (joined: bool)
      requires Valid() && Sensible(a) && (a.ActivateSaved? || a.ActivateNew?)
      modifies `attempt, `trace, `ran, `gavePsk, `looked
      ensures joined ==> Found() && Reached(trace, old(trace), Outcome(a, true))
      ensures !joined ==> Valid() && trace == old(trace) + Tried(Outcome(a, Ok(old(ran))), tries)
      ensures !joined && LiveAt(old(looked)) ==> looked == old(looked) && !Ok(old(ran))
    {
      hide Valid, Found, Ok, LiveAt;
      joined := UpWithPsk(a);
      if joined {
        joined := WaitLive();
      }
    }

    function FinishOk(): (int, string) { (0, "已连接 " + ssid) }

    function FailWrongPw(): (int, string)
    {
      (3, "密码不对，请再试一次")
    }

    function FailOpen(): (r: (int, string))
      ensures r.0 == 1 && Plainspoken(r.1)
    {
      (1, "加入开放网络失败")
    }

    function FailEnterprise(): (r: (int, string))
      ensures r.0 == 1 && Plainspoken(r.1)
    {
      (1, "暂不支持企业级网络")
    }

    function FailNeedPw(): (int, string) { (2, "NEED_PASSWORD") }

    /** Evidence of a wrong password decides; other causes only choose the words. */
    function FailExplain(): (r: (int, string))
      reads this
      ensures r.0 == (if SeesWrongPw() then 3 else 1) && (r.0 == 1 ==> Plainspoken(r.1))
    {
      if SeesWrongPw() then FailWrongPw()
      else if attempt.notFound then (1, "找不到这个网络")
      else if attempt.timeout then (1, "连接超时")
      else if attempt.noDevice then (1, "网卡不匹配")
      else if attempt.dhcp then (1, "没拿到地址")
      else (1, "未能加入此网络")
    }

    /** What an exit says: 0 exactly when the last thing done was a live check that held, and no
        earlier one had; 2 only without a password; 3 only with the log to show for it. */
    ghost predicate Honest(r: (int, string))
      reads this
    {
      && (r.0 == 0 <==> EndsLive(trace)) && (r.0 != 0 ==> Searching(trace))
      && (r.0 == 0 ==> r.1 == "已连接 " + ssid)
      && (r.0 == 2 ==> pass == "" && !IsOpen(sec) && r.1 == "NEED_PASSWORD")
      && (r.0 == 3 ==> Evidence(trace) && r.1 == "密码不对，请再试一次")
      && r.0 in [0, 1, 2, 3] && (r.0 == 1 ==> Plainspoken(r.1))
    }

    /** One saved profile: joined, given up on for its password, or passed over. */
    method TrySaved(p: Profile) returns (joined: bool, wrong: bool)
      requires Valid()
      modifies `attempt, `trace, `ran, `gavePsk, `looked
      ensures joined ==> Usable(p) && Found() && Reached(trace, old(trace), Activation(p, true))
      ensures !joined ==> Valid()
      ensures !joined ==>
                trace == old(trace) + if Usable(p) then Tried(Activation(p, Ok(old(ran))), tries) else []
      ensures wrong <==> !joined && Usable(p) && !OpenProfile(p) && Evidence(trace)
      ensures !joined && LiveAt(old(looked)) ==> looked == old(looked)
    {
      hide Found, Valid, LiveAt, Ok, Evidence, Reached;
      joined, wrong := false, false;
      if OpenProfile(p) {
        joined := UpAndLive(ActivateSaved(p, "", false));
      } else if p.psk != "" {
        joined := UpAndLive(ActivateSaved(p, p.psk, false));
        if !joined {
          SeesEvidence();
          wrong := SeesWrongPw();
        }
      } else if !NeedsAgent(p) {
        joined := UpAndLive(ActivateSaved(p, "", false));
        if !joined {
          SeesEvidence();
          wrong := SeesWrongPw();
        }
      }
      assert trace == trace + [];
    }

    /** No password of a saved profile was blamed when it was tried. */
    ghost predicate Unblamed(t: seq<Act>) {
      forall i :: 0 <= i < |t| && t[i].ActivateSaved? && !OpenProfile(t[i].profile) ==> !Evidence(t[..i + 1])
    }

    lemma UnblamedGrows(t: seq<Act>, a: Act, n: nat)
      requires Unblamed(t) && (a.ActivateSaved? && !OpenProfile(a.profile) ==> !Evidence(t + [a] + Fails(n)))
      ensures Unblamed(t + [a] + Fails(n))
    {
      var r := t + [a] + Fails(n);
      ChecksSayNothing(t + [a], n);
      assert r[..|t| + 1] == t + [a];
      forall i | 0 <= i < |t| ensures r[..i + 1] == t[..i + 1] && r[i] == t[i] {
      }
    }

    /** How a join without a password succeeds: by a saved profile, because it was live by then, or as an
        open network. */
    ghost predicate JoinedWithout(before: seq<Act>, oks: seq<bool>)
      requires |oks| <= |saved|
      reads this
    {
      var k := |oks|;
      var t := before + SavedTried(saved[..k], oks, tries);
      if k < |saved| then Usable(saved[k]) && Reached(trace, t, Activation(saved[k], true))
      else
        || trace == t + [CheckLive(true)]
        || (IsOpen(sec)
            && Reached(trace, t + [CheckLive(false), DeleteProfiles, AddProfile("")], ActivateNew("", true)))
    }

    /** How it fails: blamed for the password of a saved profile that was just tried, with all of them
        tried and one more check, or after the open network was tried too. */
    ghost predicate FailedWithout(code: int, before: seq<Act>, oks: seq<bool>)
      requires |oks| <= |saved|
      reads this
    {
      var k := |oks|;
      var t := before + SavedTried(saved[..k], oks, tries);
      if code == 3 then
        k > 0 && Usable(saved[k - 1]) && !OpenProfile(saved[k - 1]) && trace == t && Evidence(trace)
      else
        && k == |saved| && Unblamed(trace)
        && if IsOpen(sec) then
             code == 1 && exists ok :: trace == t + [CheckLive(false), DeleteProfiles, AddProfile("")]
                                                  + Tried(ActivateNew("", ok), tries)
           else code == 2 && trace == t + [CheckLive(false)]
    }

    /** What is left once the saved profiles have been tried: the network may be live by now, or open. */
    method TryOpen() returns (r: (int, string))
      requires Valid() && pass == "" && Unblamed(trace)
      modifies `attempt, `trace, `ran, `gavePsk, `looked
      ensures Honest(r) && r.0 in [0, 1, 2]
      ensures r.0 == 0 ==>
                Recorded(trace)
                && (trace == old(trace) + [CheckLive(true)]
                    || (IsOpen(sec)
                        && Reached(trace, old(trace) + [CheckLive(false), DeleteProfiles, AddProfile("")],
                                   ActivateNew("", true))))
      ensures r.0 != 0 ==>
                Valid() && Unblamed(trace)
                && if IsOpen(sec) then
                     r.0 == 1 && exists ok :: trace == old(trace) + [CheckLive(false), DeleteProfiles, AddProfile("")]
                                                       + Tried(ActivateNew("", ok), tries)
                   else r.0 == 2 && trace == old(trace) + [CheckLive(false)]
      ensures LiveAt(old(looked)) ==> r.0 == 0
    {
      hide Evidence, LiveAt, Tried, Ok, Recorded, Logged, FailOpen, Plainspoken;
      ghost var t := trace;
      var up := LiveOk();
      if up { return FinishOk(); }
      UnblamedGrows(t, CheckLive(false), 0);
      assert t + [CheckLive(false)] + Fails(0) == trace;
      if IsOpen(sec) {
        ghost var open := trace;
        var ignored := RunPlain(DeleteProfiles);
        ignored := RunPlain(AddProfile(""));
        assert trace == t + [CheckLive(false), DeleteProfiles, AddProfile("")];
        ghost var ok := Ok(ran);
        up := UpAndLive(ActivateNew("", false));
        if up { return FinishOk(); }
        OpenUnblamed(open, ok);
        assert trace == open + [DeleteProfiles, AddProfile("")] + Tried(ActivateNew("", ok), tries);
        return FailOpen();
      }
      return FailNeedPw();
    }

    method JoinWithoutPassword(ghost before: seq<Act>) returns (r: (int, string), ghost oks: seq<bool>)
      requires Valid() && pass == "" && trace == before && Unblamed(before)
      modifies `attempt, `trace, `ran, `gavePsk, `looked
      ensures Honest(r) && |oks| <= |saved|
      ensures if r.0 == 0 then JoinedWithout(before, oks) && Recorded(trace)
              else Valid() && FailedWithout(r.0, before, oks)
      // if the next check holds, only a blamed password keeps the join from succeeding
      ensures LiveAt(old(looked)) ==> r.0 == 0 || (r.0 == 3 && looked == old(looked))
    {
      hide Evidence, LiveAt, Usable, OpenProfile, Tried, Ok, Recorded, Logged, IsOpen, Reached, Plainspoken, Given;
      hide Sensible;
      oks := [];
      assert saved[..0] == [] && before == before + SavedTried([], [], tries);
      var k := 0;
      while k < |saved|
        invariant 0 <= k == |oks| <= |saved|
        invariant Valid() && trace == before + SavedTried(saved[..k], oks, tries) && Unblamed(trace)
        invariant LiveAt(old(looked)) ==> looked == old(looked)
      {
        ghost var ok := Ok(ran);
        ghost var t := trace;
        SavedNext(before, k, oks, ok);
        var joined, wrong := TrySaved(saved[k]);
        if joined { return FinishOk(), oks; }
        if wrong { return FailWrongPw(), oks + [ok]; }
        StillUnblamed(t, saved[k], ok);
        oks, k := oks + [ok], k + 1;
      }
      assert saved[..k] == saved;
      r := TryOpen();
    }

    lemma SavedNext(before: seq<Act>, k: nat, oks: seq<bool>, ok: bool)
      requires k == |oks| < |saved|
      ensures before + SavedTried(saved[..k + 1], oks + [ok], tries)
           == before + SavedTried(saved[..k], oks, tries)
              + if Usable(saved[k]) then Tried(Activation(saved[k], ok), tries) else []
    {
      assert saved[..k + 1] == saved[..k] + [saved[k]];
      SavedGrow(saved[..k], oks, tries, saved[k], ok);
    }

    lemma StillUnblamed(t: seq<Act>, p: Profile, ok: bool)
      requires Unblamed(t)
      requires Usable(p) && !OpenProfile(p) ==> !Evidence(t + Tried(Activation(p, ok), tries))
      ensures Unblamed(t + if Usable(p) then Tried(Activation(p, ok), tries) else [])
    {
      hide Evidence;
      if Usable(p) {
        var a := Activation(p, ok);
        var n := if ok then tries + 1 else 0;
        assert t + Tried(a, tries) == t + [a] + Fails(n);
        UnblamedGrows(t, a, n);
      } else {
        assert t + [] == t;
      }
    }

    lemma OpenUnblamed(t: seq<Act>, ok: bool)
      requires Unblamed(t)
      ensures Unblamed(t + [DeleteProfiles, AddProfile("")] + Tried(ActivateNew("", ok), tries))
    {
      hide Evidence;
      var n := if ok then tries + 1 else 0;
      var u := t + [DeleteProfiles] + Fails(0);
      var v := u + [AddProfile("")] + Fails(0);
      UnblamedGrows(t, DeleteProfiles, 0);
      UnblamedGrows(u, AddProfile(""), 0);
      UnblamedGrows(v, ActivateNew("", ok), n);
      assert v + [ActivateNew("", ok)] + Fails(n)
          == t + [DeleteProfiles, AddProfile("")] + Tried(ActivateNew("", ok), tries);
    }

    /** A new profile, made after the saved one could not be activated. */
    function NewMade(before: seq<Act>): seq<Act> {
      before
      + (if saved == [] then [] else [ModifyProfile(KeyMgmt(sec)), ActivateSaved(saved[0], pass, false)])
      + [DeleteProfiles, AddProfile(KeyMgmt(sec)), ModifyProfile("")]
    }

    /** The new profile tried, for a WPA3 network once more as a WPA2 one. */
    function NewTried(before: seq<Act>, ok: bool, ok2: bool): seq<Act> {
      NewMade(before) + Tried(ActivateNew(pass, ok), tries)
      + if KeyMgmt(sec) == "sae" then [ModifyProfile("wpa-psk")] + Tried(ActivateNew(pass, ok2), tries) else []
    }

    /** How a join with a password succeeds. */
    ghost predicate JoinedWith(before: seq<Act>, ok: bool, ok2: bool, ok3: bool)
      reads this
    {
      || (saved != [] && Reached(trace, before + [ModifyProfile(KeyMgmt(sec))], ActivateSaved(saved[0], pass, true)))
      || Reached(trace, NewMade(before), ActivateNew(pass, true))
      || (KeyMgmt(sec) == "sae"
          && Reached(trace, NewMade(before) + Tried(ActivateNew(pass, ok), tries) + [ModifyProfile("wpa-psk")],
                     ActivateNew(pass, true)))
      || Reached(trace, NewTried(before, ok, ok2), JoinDevice(pass, ok3))
    }

    /** The saved profile could not be activated and its password is to blame. */
    ghost predicate ShutOut(before: seq<Act>)
      reads this
    {
      saved != [] && trace == before + [ModifyProfile(KeyMgmt(sec)), ActivateSaved(saved[0], pass, false)]
    }

    /** How it fails: shut out, not live after all on the saved profile, or with everything tried. */
    ghost predicate FailedWith(code: int, before: seq<Act>, ok: bool, ok2: bool, ok3: bool)
      reads this
    {
      || (code == 3 && ShutOut(before))
      || (saved != []
          && trace == before + [ModifyProfile(KeyMgmt(sec))] + Tried(ActivateSaved(saved[0], pass, true), tries))
      || trace == NewTried(before, ok, ok2) + [JoinDevice(pass, ok3)] + Fails(tries + 1)
    }

    /** The words for a failure that is nobody's password: the first cause the output names. */
    ghost function Explanation(t: seq<Act>): (words: string)
      ensures Plainspoken(words)
    {
      if Seen(Commands(t), (l: Log) => l.notFound) then "找不到这个网络"
      else if Seen(Commands(t), (l: Log) => l.timeout) then "连接超时"
      else if Seen(Commands(t), (l: Log) => l.noDevice) then "网卡不匹配"
      else if Seen(Commands(t), (l: Log) => l.dhcp) then "没拿到地址"
      else "未能加入此网络"
    }

    lemma Explained()
      requires Valid()
      ensures var r := FailExplain();
              if Evidence(trace) then r == FailWrongPw() else r == (1, Explanation(trace))
    {
      hide Seen;
      SeesEvidence();
    }

    /** The saved profile with the new password: over with it one way or the other, or not activated
        although nothing blames the password. */
    method TryExisting(ghost before: seq<Act>) returns (over: bool, r: (int, string))
      requires Valid() && pass != "" && saved != [] && trace == before
      modifies `attempt, `trace, `ran, `gavePsk, `looked
      ensures over && r.0 == 0 ==>
                Found() && r == FinishOk()
                && Reached(trace, before + [ModifyProfile(KeyMgmt(sec))], ActivateSaved(saved[0], pass, true))
      ensures over && r.0 != 0 ==> Valid() && (r.0 == 3 <==> Evidence(trace)) && r.0 in [1, 3]
      ensures over && r.0 == 3 ==> r == FailWrongPw()
      ensures over && r.0 == 1 ==> r == (1, Explanation(trace))
      ensures over && r.0 != 0 ==>
                || (r.0 == 3 && ShutOut(before))
                || trace == before + [ModifyProfile(KeyMgmt(sec))] + Tried(ActivateSaved(saved[0], pass, true), tries)
      ensures !over ==>
                Valid() && trace == before + [ModifyProfile(KeyMgmt(sec)), ActivateSaved(saved[0], pass, false)]
      ensures LiveAt(old(looked)) ==> if over then r.0 == 0 || ShutOut(before) else looked == old(looked)
    {
      hide Valid, Found, Evidence, LiveAt, Ok, FailExplain, Explanation, KeyMgmt, Reached;
      r := (1, "");
      var ignored := RunPlain(ModifyProfile(KeyMgmt(sec)));
      var up := UpWithPsk(ActivateSaved(saved[0], pass, false));
      ghost var t := before + [ModifyProfile(KeyMgmt(sec))];
      assert trace == t + [ActivateSaved(saved[0], pass, up)];
      if up {
        ghost var active := trace;
        up := WaitLive();
        over := true;
        if up {
          HeldAfter(active, t, ActivateSaved(saved[0], pass, true));
          r := FinishOk();
          return;
        }
        Explained();
        r := FailExplain();
        return;
      }
      SeesEvidence();
      over := SeesWrongPw();
      if over {
        r := FailWrongPw();
      }
    }

    /** A command that gives no password. */
    method RunPlain(a: Act) returns (ok: bool)
      requires Valid() && Sensible(a) && !a.CheckLive? && !Gives(a)
      modifies `attempt, `trace, `ran
      ensures Valid() && ok == Ok(old(ran)) && trace == old(trace) + [Outcome(a, ok)]
    {
      ok := Command(a);
    }

    method TryNewProfile(ghost before: seq<Act>) returns (joined: bool, ghost ok: bool, ghost ok2: bool)
      requires Valid() && pass != ""
      requires trace == before
                 + if saved == [] then [] else [ModifyProfile(KeyMgmt(sec)), ActivateSaved(saved[0], pass, false)]
      modifies `attempt, `trace, `ran, `gavePsk, `looked
      ensures joined ==> Found() && JoinedWith(before, ok, ok2, false)
      ensures !joined ==> Valid() && trace == NewTried(before, ok, ok2)
      ensures !joined && LiveAt(old(looked)) ==> looked == old(looked)
    {
      hide Valid, Found, LiveAt, Ok, KeyMgmt, Reached, Tried;
      var km := KeyMgmt(sec);
      ok2 := false;
      var ignored := RunPlain(DeleteProfiles);
      ignored := RunPlain(AddProfile(km));
      ignored := RunPlain(ModifyProfile(""));
      assert trace == NewMade(before);
      ok := Ok(ran);
      joined := UpAndLive(ActivateNew(pass, false));
      if joined { return; }
      if km == "sae" {
        ignored := RunPlain(ModifyProfile("wpa-psk"));
        ok2 := Ok(ran);
        joined := UpAndLive(ActivateNew(pass, false));
        if joined { return; }
        assert trace == NewTried(before, ok, ok2);
      } else {
        assert trace == NewTried(before, ok, ok2);
      }
    }

    /** nmcli's own way in, as the last resort. */
    method TryDevice() returns (joined: bool, ghost ok: bool)
      requires Valid() && pass != ""
      modifies `attempt, `trace, `ran, `looked
      ensures joined ==> Found() && Reached(trace, old(trace), JoinDevice(pass, ok))
      ensures !joined ==> Valid() && trace == old(trace) + [JoinDevice(pass, ok)] + Fails(tries + 1)
      ensures LiveAt(old(looked)) ==> joined
    {
      hide Found, LiveAt, Ok, Reached, Recorded, Logged;
      ghost var before := trace;
      ok := Command(JoinDevice(pass, false));
      ghost var t := trace;
      joined := WaitLive();
      if joined {
        HeldAfter(t, before, JoinDevice(pass, ok));
      }
    }

    method JoinWithPassword(ghost before: seq<Act>)
      returns (r: (int, string), ghost ok: bool, ghost ok2: bool, ghost ok3: bool)
      requires Recording() && pass != "" && trace == before
      modifies `attempt, `trace, `ran, `gavePsk, `looked
      ensures Honest(r)
      ensures r.0 == 0 ==> JoinedWith(before, ok, ok2, ok3) && Recorded(trace)
      ensures r.0 != 0 ==> Valid() && FailedWith(r.0, before, ok, ok2, ok3) && (r.0 == 3 <==> Evidence(trace))
      ensures r.0 == 1 ==> r.1 == Explanation(trace)
      // if the next check holds, only a saved profile that is shut out keeps the join from succeeding
      ensures LiveAt(old(looked)) ==> r.0 == 0 || (r.0 == 3 && ShutOut(before))
    {
      hide Evidence, LiveAt, FailExplain, Explanation, KeyMgmt, Reached, NewTried, Recorded, Logged;
      ok, ok2, ok3 := false, false, false;
      gavePsk := true;
      if saved != [] {
        var over;
        over, r := TryExisting(before);
        if over { return; }
      }
      assert before + [] == before;
      var joined;
      joined, ok, ok2 := TryNewProfile(before);
      if joined { return FinishOk(), ok, ok2, false; }
      joined, ok3 := TryDevice();
      if joined { return FinishOk(), ok, ok2, ok3; }
      Explained();
      SeesEvidence();
      if SeesWrongPw() { return FailWrongPw(), ok, ok2, ok3; }
      r := FailExplain();
    }

    lemma SeenLive(t: seq<Act>)
      requires EndsLive(t) && Recorded(t)
      ensures exists k: nat :: LiveAt(k)
    {
      hide LiveAt;
      assert t[|t| - 1] == CheckLive(true);
      assert LiveAt(Checks(t[..|t| - 1]));
    }

    /** Everything about a join's exit and what it did for it. It is honest, gives up only with everything
        tried that could work, and blames a password exactly when the log does. */
    ghost predicate Thorough(r: (int, string), oks: seq<bool>)
      reads this
    {
      && Honest(r) && Recorded(trace)
      && (r.0 == 0 ==> exists k: nat :: LiveAt(k))
      && (IsEnterprise(sec) ==> r.0 == 1 && trace == [])
      // a first check that holds is all a join does
      && (!IsEnterprise(sec) && LiveAt(0) ==> r.0 == 0 && trace == [CheckLive(true)])
      // otherwise a second one that holds is enough, unless a saved profile's password is blamed first
      && (!IsEnterprise(sec) && LiveAt(1) ==> r.0 == 0 || r.0 == 3)
      && (!IsEnterprise(sec) && LiveAt(1) && pass != "" && r.0 == 3 ==> ShutOut([CheckLive(false)]))
      && (!IsEnterprise(sec) && !LiveAt(0) && pass == "" ==>
            |oks| <= |saved|
            && if r.0 == 0 then JoinedWithout([CheckLive(false)], oks)
               else FailedWithout(r.0, [CheckLive(false)], oks))
      && (!IsEnterprise(sec) && !LiveAt(0) && pass != "" ==>
            |oks| == 3
            && if r.0 == 0 then JoinedWith([CheckLive(false)], oks[0], oks[1], oks[2])
               else FailedWith(r.0, [CheckLive(false)], oks[0], oks[1], oks[2]) && (r.0 == 3 <==> Evidence(trace)))
      && (!IsEnterprise(sec) && pass != "" && r.0 == 1 ==> r.1 == Explanation(trace))
    }

    /** The whole join: it never disconnects, and its exit code is honest. It gives up only with
        everything tried that could work, and blames a password exactly when the log does. */
    method Join() returns (r: (int, string), ghost oks: seq<bool>)
      requires ssid != "" && trace == [] && Recording() && !gavePsk
      modifies `attempt, `trace, `ran, `looked, `gavePsk
      ensures Thorough(r, oks)
    {
      hide Evidence, LiveAt, Logged, JoinedWith, JoinedWithout, FailedWith, FailedWithout, Explanation;
      hide ShutOut, Unblamed, FailEnterprise, Plainspoken;
      oks := [];
      if IsEnterprise(sec) { return FailEnterprise(), []; }
      assert looked == 0;
      var up := LiveOk();
      assert trace == [CheckLive(up)];
      if up {
        SeenLive(trace);
        return FinishOk(), [];
      }
      if pass == "" {
        NothingBlamed();
        r, oks := JoinWithoutPassword([CheckLive(false)]);
      } else {
        ghost var ok, ok2, ok3;
        r, ok, ok2, ok3 := JoinWithPassword([CheckLive(false)]);
        oks := [ok, ok2, ok3];
      }
      if r.0 == 0 {
        SeenLive(trace);
      }
    }

    lemma NothingBlamed()
      ensures Unblamed([CheckLive(false)])
    {
    }

    /** Deletes the profiles and, if the network is in use, leaves it. No live check is made. */
    method Forget(inUse: bool) returns (r: (int, string))
      requires trace == [] && Recording()
      modifies `attempt, `trace, `ran
      ensures r == (0, "已忘记 " + ssid)
      ensures trace == if inUse then [DeleteProfiles, Disconnect] else [DeleteProfiles]
    {
      var ignored := Command(DeleteProfiles);
      if inUse {
        trace := trace + [Disconnect];
      }
      return (0, "已忘记 " + ssid);
    }
  }

  /** Everything a join can leave the HUD with. */
  ghost predicate JoinExit(ssid: string, pass: string, rc: int, out: string) {
    && (ssid == "" ==> rc == 1 && out == NO_NAME)
    && rc in [0, 1, 2, 3]
    && (rc == 0 ==> out == "已连接 " + ssid)
    && (rc == 1 ==> Plainspoken(out))
    && (rc == 2 ==> pass == "" && out == NEED_PASSWORD)
    && (rc == 3 ==> out == "密码不对，请再试一次")
  }

  /** What the HUD's runs take for granted of a join's end. */
  predicate Answers(ssid: string, pass: string, rc: int, out: string) {
    WifiRuns.Answers(WifiState.Running(WifiState.Connect, ssid, pass), rc, out)
  }

  lemma WordsSay()
    ensures !Contains(NEED_PASSWORD, "已连接") && !Contains(NEED_PASSWORD, "密码不对")
    ensures !Contains(NEED_PASSWORD, "WRONG_PASSWORD") && !Contains(NEED_PASSWORD, "psk mismatch")
    ensures !Contains("密码不对，请再试一次", "已连接") && !Contains("密码不对，请再试一次", NEED_PASSWORD)
    ensures Contains("密码不对，请再试一次", "密码不对") && Contains(NEED_PASSWORD, "NEED_PASSWORD")
  {
    LacksFirst(NEED_PASSWORD, "已连接");
    LacksFirst(NEED_PASSWORD, "密码不对");
    LacksFirst(NEED_PASSWORD, "psk mismatch");
    LacksFirst("密码不对，请再试一次", "已连接");
    LacksFirst("密码不对，请再试一次", NEED_PASSWORD);
    assert OccursAt("密码不对，请再试一次", "密码不对", 0);
    assert OccursAt(NEED_PASSWORD, "NEED_PASSWORD", 0);
    forall i: nat | i <= |NEED_PASSWORD| ensures !OccursAt(NEED_PASSWORD, "WRONG_PASSWORD", i) {
    }
  }

  /** The HUD reads every exit of a join as the script means it, by the code and, should the code be
      lost, by the words alone. */
  lemma ReadAsMeant(ssid: string, pass: string, rc: int, out: string)
    requires JoinExit(ssid, pass, rc, out)
    ensures JobOk(rc, out) <==> rc == 0
    ensures NeedPw(rc, out) <==> rc == 2
    ensures WrongPw(rc, out) <==> rc == 3
    ensures rc == 0 ==> JobOk(1, out)
    ensures rc == 2 ==> NeedPw(1, out) && !WrongPw(1, out)
    ensures rc == 3 ==> WrongPw(1, out) && !NeedPw(1, out)
  {
    WordsSay();
    if rc == 0 {
      assert OccursAt(out, "已连接", 0);
    } else if rc == 1 {
      SaysNothing(out);
    }
  }

  /** Runs the script on its arguments, of which the first doubles as a command word. Exit code 0
      means that the network was seen live, unless the network is called "forget": then the
      password is taken for a network to forget, if nmcli is there. In any case the exit is one the HUD
      counts on. */
  method Invoke(a1: string, a2: string, sec: string, tries: nat, saved: seq<Profile>, hasNmcli: bool,
                awk: Awk, results: seq<Result>, looks: seq<Look>, inUse: bool)
    returns (r: (int, string), s: Script, ghost oks: seq<bool>)
    ensures fresh(s) && s.pass == (if a1 == "forget" then "" else a2) && s.ssid == (if a1 == "forget" then a2 else a1)
    ensures s.sec == sec && s.tries == tries && s.saved == saved
    ensures s.awk == awk && s.results == results && s.looks == looks
    ensures a1 != "forget" && a1 != "" && hasNmcli ==> s.Thorough(r, oks)
    ensures !hasNmcli ==> r.0 == 1 && s.trace == []
    ensures a1 == "forget" && a2 != "" && hasNmcli ==>
              r == (0, "已忘记 " + a2) && s.trace == [DeleteProfiles] + if inUse then [Disconnect] else []
    ensures a1 != "forget" ==> JoinExit(a1, a2, r.0, r.1)
    ensures a1 != "forget" && a1 != "" ==> s.Honest(r)
    ensures a1 == "forget" ==> r.0 == (if a2 == "" || !hasNmcli then 1 else 0) && !EndsLive(s.trace)
    ensures (r.0 == 0 ==> EndsLive(s.trace)) <==> a1 != "forget" || a2 == "" || !hasNmcli
    ensures Answers(a1, a2, r.0, r.1)
  {
    hide Plainspoken;
    oks := [];
    RefusalsArePlain();
    SaysNothing(NO_NAME);
    SaysNothing(NO_NMCLI);
    var forget := a1 == "forget";
    var ssid := if forget then a2 else a1;
    s := new Script(ssid, if forget then "" else a2, sec, tries, saved, awk, results, looks);
    if ssid == "" {
      r := (1, NO_NAME);
    } else if !hasNmcli {
      r := (1, NO_NMCLI);
    } else if forget {
      r := s.Forget(inUse);
    } else {
      r, oks := s.Join();
    }
    if !forget {
      JoinAnswers(a1, a2, r.0, r.1, |r.1|);
    }
  }

  /** A join that was handed a password never asks for one, and a join of no network neither succeeds
      nor has anything to do with passwords, whether it ran to its end or was killed anywhere in its
      output. */
  lemma JoinAnswers(ssid: string, pass: string, rc: int, out: string, cut: nat)
    requires JoinExit(ssid, pass, rc, out) && cut <= |out|
    ensures Answers(ssid, pass, rc, out) && Answers(ssid, pass, 1, out[..cut])
  {
    ReadAsMeant(ssid, pass, rc, out);
    if rc == 0 {
      if cut >= 3 {
        assert OccursAt(out[..cut], "已连接", 0);
      } else {
        assert out[..cut] == "已连接"[..cut];
        LacksFirst(out[..cut], NEED_PASSWORD);
      }
    } else if rc == 1 {
      SaysNothing(out[..cut]);
    } else if rc == 3 {
      LacksFirst(out[..cut], NEED_PASSWORD);
    }
  }

  /** A join whose network has a name nmcli escapes fails even where the network is the one in use:
      no check sees it. */
  method EscapedNameNeverJoins(ssid: string, pass: string, sec: string, tries: nat, saved: seq<Profile>,
                               awk: Awk, results: seq<Result>, looks: seq<Look>)
    returns (r: (int, string))
    requires IsAwk(awk) && ssid != "" && FieldSplit.Escape(ssid) != ssid
    requires forall k, i :: 0 <= k < |looks| && 0 <= i < |looks[k].inUse| ==> looks[k].inUse[i] == ssid
    ensures r.0 != 0
  {
    var s := new Script(ssid, pass, sec, tries, saved, awk, results, looks);
    SeenUnderOwnName(ssid, awk);
    ghost var oks;
    r, oks := s.Join();
  }

  /** A join of a name that nmcli does not escape and that does not look like a number succeeds only if
      a check found that very network in use. */
  method PlainNameIsInUse(ssid: string, pass: string, sec: string, tries: nat, saved: seq<Profile>,
                          awk: Awk, results: seq<Result>, looks: seq<Look>)
    returns (r: (int, string))
    requires IsAwk(awk) && ssid != "" && FieldSplit.Escape(ssid) == ssid && !awk.numeral(ssid)
    ensures r.0 == 0 ==> exists k :: 0 <= k < |looks| && looks[k].connected && ssid in looks[k].inUse
  {
    var s := new Script(ssid, pass, sec, tries, saved, awk, results, looks);
    if !exists k :: 0 <= k < |looks| && looks[k].connected && ssid in looks[k].inUse {
      forall k | 0 <= k < |looks| ensures !Live(awk, looks[k], ssid) {
        OnlyItself(awk, looks[k], ssid);
      }
    }
    ghost var oks;
    r, oks := s.Join();
  }

  lemma OnlyItself(awk: Awk, l: Look, ssid: string)
    requires IsAwk(awk) && FieldSplit.Escape(ssid) == ssid && !awk.numeral(ssid)
    ensures Live(awk, l, ssid) ==> l.connected && ssid in l.inUse
  {
    PlainlySeen(ssid);
    if Live(awk, l, ssid) {
      var k :| 0 <= k < |l.inUse| && Sees(awk, l.inUse[k], ssid);
      if l.inUse[k] != ssid {
        MistakenOnlyFor(l.inUse[k], ssid, awk);
      }
    }
  }

  /** While only another network is in use, a join succeeds, and on the spot, exactly if the check takes
      that network for the one asked for. */
  method JoinOnAnother(ssid: string, pass: string, sec: string, tries: nat, saved: seq<Profile>,
                       awk: Awk, results: seq<Result>, other: string)
    returns (r: (int, string), s: Script)
    requires ssid != ""
    ensures fresh(s) && (r.0 == 0 <==> Sees(awk, other, ssid) && !IsEnterprise(sec))
    ensures r.0 == 0 ==> s.trace == [CheckLive(true)]
  {
    hide IsEnterprise, Sees;
    var look := Look(true, [other]);
    s := new Script(ssid, pass, sec, tries, saved, awk, results, [look]);
    assert Live(awk, look, ssid) <==> Sees(awk, other, ssid) by {
      assert look.inUse[0] == other;
    }
    ghost var oks;
    r, oks := s.Join();
  }
}
