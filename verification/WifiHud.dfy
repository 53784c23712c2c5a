/** The HUD's Wi-Fi handlers over the globals they share. Every handler of an event keeps `Valid` and
    does to the rest of the HUD what its predicate in WifiEffects says. Each is also tied to the state
    function of its name, so that a whole run of the main loop has what WifiRuns proves of runs. */
module WifiHud {
  import opened Common
  import opened WifiFlow
  import opened WifiState
  import opened WifiRuns
  import opened WifiEffects
  import opened WifiEnds

  class Hud {
    /** The file's globals, as one record. */
    var g: State
    /** How many joins were asked for. */
    ghost var budget: nat

    ghost predicate Valid()
      reads this
    {
      Good(g, budget)
    }

    constructor ()
      ensures Valid() && g == START && budget == 0
    {
      g := START;
      budget := 0;
    }

    method AbortJob()
      modifies `g
      ensures g == old(g).(job := Idle)
    {
      g := g.(job := Idle);
    }

    /** One process at a time; `ok` tells whether forking one works out. */
    method StartNmcli(kind: Kind, name: string, pass: string, ok: bool) returns (rc: int)
      modifies `g
      ensures rc == (if old(g).job.Idle? && ok then 0 else -1)
      ensures g == if rc == 0 then Started(old(g), kind, name, pass) else old(g)
    {
      if g.job.Running? || !ok { return -1; }
      g := Started(g, kind, name, pass);
      return 0;
    }

    method MarkApActive(ssid: string)
      modifies `g
      ensures g == old(g).(aps := MarkActive(old(g).aps, ssid))
    {
      if ssid == "" { return; }
      var aps, i := g.aps, 0;
      while i < |aps|
        invariant 0 <= i <= |aps| == |g.aps| && g == old(g)
        invariant forall k :: 0 <= k < |aps| ==>
                    aps[k] == if k < i then g.aps[k].(active := g.aps[k].ssid == ssid) else g.aps[k]
      {
        aps := aps[i := aps[i].(active := aps[i].ssid == ssid)];
        i := i + 1;
      }
      assert aps == MarkActive(g.aps, ssid);
      g := g.(aps := aps);
    }

    method MarkApInactive(ssid: string)
      modifies `g
      ensures g == old(g).(aps := MarkInactive(old(g).aps, ssid))
    {
      var aps, i := g.aps, 0;
      while i < |aps|
        invariant 0 <= i <= |aps| == |g.aps| && g == old(g)
        invariant forall k :: 0 <= k < |aps| ==> aps[k] == if k < i then MarkInactive(g.aps, ssid)[k] else g.aps[k]
      {
        if ssid == "" || aps[i].ssid == ssid {
          aps := aps[i := aps[i].(active := false)];
        }
        i := i + 1;
      }
      assert aps == MarkInactive(g.aps, ssid);
      g := g.(aps := aps);
    }

    method ApIsCurrent(ssid: string) returns (r: bool)
      ensures r == IsCurrent(g, ssid)
    {
      if SsidEq(g.forgetSsid, ssid) { return false; }
      if AlreadyOn(g.connected, g.live, ssid) { return true; }
      if ssid == "" || !g.connected { return false; }
      var i := 0;
      while i < |g.aps|
        invariant 0 <= i <= |g.aps| && Find(g.aps, ssid, i) == Find(g.aps, ssid, 0)
      {
        if g.aps[i].ssid == ssid { return g.aps[i].active; }
        i := i + 1;
      }
      return false;
    }

    method Trim(raw: string) returns (s: string)
      ensures s == SkipBlanks(raw)
    {
      s := raw;
      while s != "" && (s[0] == ' ' || s[0] == '\t')
        invariant SkipBlanks(s) == SkipBlanks(raw)
        decreases |s|
      {
        s := s[1..];
      }
    }

    method NameOf(raw: string) returns (carries: bool, name: string)
      ensures carries == CarriesName(raw) && (carries ==> name == NameIn(raw))
    {
      hide SkipBlanks, UpTo, WithoutPrefix;
      var s := Trim(raw);
      if s == "" || s == "--" { return false, ""; }
      return true, UpTo(UpTo(WithoutPrefix(s), '\n'), '\r');
    }

    method ReleaseHold(name: string)
      modifies `g
      ensures g == old(g).(forgetSsid := if name != "" then "" else old(g).forgetSsid)
    {
      if g.forgetSsid != "" && name != "" {
        g := g.(forgetSsid := "");
      }
    }

    method Ignores(name: string) returns (b: bool)
      ensures b == NameIgnored(g, name)
    {
      hide Sibling;
      if g.connectSsid != "" && name != g.connectSsid {
        if Sibling(name, g.connectSsid) || Sibling(g.connectSsid, name) { return true; }
      }
      return SsidEq(g.forgetSsid, name);
    }

    method TakeName(name: string)
      modifies `g
      ensures g == ApplyName(old(g), name)
    {
      hide Sibling, NameIgnored;
      var ignored := Ignores(name);
      if ignored { return; }
      ReleaseHold(name);
      if Sibling(name, g.live) { return; }
      g := g.(live := name);
    }

    /** Takes a network name from a report, unless it is a sibling of the one being joined or the
        forgotten one. */
    method ApplyWifiSsid(raw: string)
      requires Valid()
      modifies `g
      ensures g == ApplySsid(old(g), raw)
      ensures Valid() && NameTaken(old(g), g, raw)
    {
      hide NameIn, CarriesName, ApplyName, Good, NameTaken;
      NameKeeps(g, raw, budget);
      NameEffect(g, raw, budget);
      var carries, name := NameOf(raw);
      if !carries { return; }
      TakeName(name);
    }

    /** The first row in use that is not the forgotten one gives the live name. */
    method ApplyActiveAp()
      requires Valid()
      modifies `g
      ensures g == ApplyActive(old(g))
      ensures Valid() && ActiveTaken(old(g), g)
    {
      hide ApplySsid, Good, ActiveTaken, NameTaken;
      ActiveKeeps(g, budget);
      ActiveEffect(g, budget);
      var i := 0;
      while i < |g.aps|
        invariant 0 <= i <= |g.aps| && g == old(g)
        invariant FirstInUse(g.aps, g.live, g.forgetSsid, i) == FirstInUse(g.aps, g.live, g.forgetSsid, 0)
      {
        var inUse := g.aps[i].active;
        if !inUse && g.live != "" && g.aps[i].ssid == g.live {
          inUse := true;
        }
        if inUse && !SsidEq(g.forgetSsid, g.aps[i].ssid) {
          if g.aps[i].ssid != "" {
            ApplyWifiSsid(g.aps[i].ssid);
          }
          return;
        }
        i := i + 1;
      }
    }

    method ShowConnecting(name: string)
      modifies `g
      ensures g == BeginJoin(old(g), name)
      ensures g.job == old(g).job && g.wantConnect == old(g).wantConnect
      ensures g.pendSsid == old(g).pendSsid && g.pendPass == old(g).pendPass
    {
      g := g.(forgetSsid := "", connecting := true, waiting := false, busy := true, connectSsid := name);
    }

    method Queue(ssid: string, pass: string)
      modifies `g
      ensures g == Queued(old(g), ssid, pass)
    {
      g := g.(pendSsid := ssid, pendPass := pass, wantConnect := true);
    }

    /** Joins a network, aborting whatever else runs. A join that is already running keeps its place,
        and the new one is queued. The result of the start is not looked at. With `own`, the name is
        not only that of the network joined last but the very buffer for it. */
    method WifiConnect(ssid: string, own: bool, pass: string, ok: bool)
      requires own ==> ssid == g.connectSsid
      modifies `g
      ensures g == if own then Rejoin(old(g), pass, ok) else Join(old(g), ssid, pass, ok)
      ensures ssid != "" ==> JoinBegun(old(g), g, if own then SelfCopied(ssid) else ssid, pass, ok)
    {
      hide BeginJoin, Queued, KeepPendingPsk, Started, JoinBegun, SelfCopied;
      if ssid == "" { return; }
      // from here on, a name in the buffer reads as what the copy left there
      var name := if own then SelfCopied(ssid) else ssid;
      JoinEffect(g, name, pass, ok);
      ShowConnecting(name);
      if g.job.Running? && !g.job.kind.Connect? {
        AbortJob();
      }
      if g.job.Running? {
        if KeepPendingPsk(pass == "", g.wantConnect, g.pendSsid, g.pendPass, name) { return; }
        Queue(name, pass);
        return;
      }
      var ignored := StartNmcli(Connect, name, pass, ok);
      g := g.(stuck := !ok);
    }

    method WifiSubmitPass(password: string, enterprise: bool, ok: bool)
      requires Valid()
      modifies this
      ensures g == SubmitPass(old(g), password, enterprise, ok)
      ensures Valid() && budget == old(budget) + 1 && PasswordTaken(old(g), g, password, enterprise, ok)
    {
      hide JoinAs, Good, PasswordTaken, JoinBegun;
      SubmitKeeps(g, password, enterprise, ok, budget);
      SubmitEffect(g, password, enterprise, ok, budget);
      budget := budget + 1;
      var ssid := PassSsid(g.connectSsid, g.selectedSsid);
      if ssid == "" || g.forgetting { return; }
      if enterprise { return; }
      if |password| < MIN_PASSWORD { return; }
      g := g.(needPass := true, knownSsid := ssid, knownPsk := password);
      if g.connecting {
        Queue(ssid, password);
        return;
      }
      WifiConnect(ssid, g.connectSsid != "", password, ok);
    }

    method DropLive(ssid: string)
      modifies `g
      ensures var drops := SsidEq(old(g).live, ssid);
              g == old(g).(connected := old(g).connected && !drops, live := if drops then "" else old(g).live)
    {
      hide SsidEq;
      if SsidEq(g.live, ssid) {
        g := g.(connected := false, live := "");
      }
    }

    method ClearAway(ssid: string)
      modifies `g
      ensures g.job.Idle? && g == Forgotten(old(g), ssid).(forgetting := true)
      ensures g.(forgetting := false) == Forgotten(old(g), ssid)
    {
      hide MarkInactive, SsidEq;
      g := g.(waiting := false, connecting := false, busy := false, stuck := false,
              wantConnect := false, wantScan := false, wantInfo := false, wantLink := false,
              forgetting := true, forgetSsid := ssid);
      MarkApInactive(ssid);
      DropLive(ssid);
      AbortJob();
    }

    method WifiForget(ssid: string, ok: bool)
      requires Valid()
      modifies `g
      ensures g == ForgetNetwork(old(g), ssid, ok)
      ensures Valid() && ForgetTaken(old(g), g, ssid, ok)
    {
      hide Forgotten, Good, ForgetTaken;
      ForgetKeeps(g, ssid, ok, budget);
      ForgetEffect(g, ssid, ok, budget);
      if ssid == "" { return; }
      if !ForgetCanStart(g.job.Running?, IsForget(g.job)) { return; }
      ClearAway(ssid);
      var rc := StartNmcli(Forget, ssid, "", ok);
      if rc < 0 {
        g := g.(forgetting := false);
        return;
      }
    }

    method WifiJoinPicked(enterprise: bool, ok: bool)
      requires Valid()
      modifies this
      ensures g == JoinPicked(old(g), enterprise, ok)
      ensures Valid() && budget == old(budget) + 1 && TapTaken(old(g), g, enterprise, ok)
    {
      hide JoinAs, IsCurrent, Good, TapTaken, JoinBegun;
      TapKeeps(g, enterprise, ok, budget);
      TapEffect(g, enterprise, ok, budget);
      budget := budget + 1;
      var ssid := g.selectedSsid;
      if ssid == "" || g.connecting || g.forgetting { return; }
      var current := ApIsCurrent(ssid);
      if current || enterprise { return; }
      if UseSessionPsk(ssid, g.knownSsid, g.knownPsk) {
        g := g.(needPass := true);
        WifiConnect(ssid, false, g.knownPsk, ok);
        return;
      }
      g := g.(needPass := false);
      WifiConnect(ssid, false, "", ok);
    }

    method WifiScan(ok: bool)
      modifies `g
      ensures g == StartScan(old(g), ok)
    {
      var rc := StartNmcli(Scan, "", "", ok);
      if rc < 0 {
        g := g.(wantScan := true);
      }
    }

    method WifiInfo(ok: bool)
      modifies `g
      ensures g == StartInfo(old(g), ok)
    {
      var rc := StartNmcli(Info, "", "", ok);
      if rc < 0 {
        g := g.(wantInfo := true);
      }
    }

    method WifiRadio(ok: bool)
      modifies `g
      ensures g == StartRadio(old(g), ok)
    {
      var rc := StartNmcli(Radio, "", "", ok);
      if rc < 0 {
        g := g.(wantInfo := true);
      }
    }

    method WifiLink(ok: bool)
      modifies `g
      ensures g == StartLink(old(g), ok)
    {
      var rc := StartNmcli(Link, "", "", ok);
      if rc < 0 {
        g := g.(wantLink := true);
      }
    }

    method StartQueued(ok: bool)
      modifies `g
      ensures g == JoinQueued(old(g), ok)
    {
      hide JoinAs, JoinBegun;
      g := g.(wantConnect := false);
      WifiConnect(g.pendSsid, false, g.pendPass, ok);
    }

    method StartWish(ok: bool)
      modifies `g
      ensures g == RunWish(old(g), ok)
    {
      hide StartScan, StartLink, StartInfo;
      if g.wantScan {
        g := g.(wantScan := false);
        WifiScan(ok);
        return;
      }
      if g.wantLink {
        g := g.(wantLink := false);
        WifiLink(ok);
        return;
      }
      if g.wantInfo {
        g := g.(wantInfo := false);
        WifiInfo(ok);
      }
    }

    method KickPending(ok: bool)
      requires Valid()
      modifies `g
      ensures g == Kick(old(g), ok)
      ensures Valid() && WorkTaken(old(g), g, ok)
    {
      hide JoinQueued, RunWish, Good, WorkTaken;
      KickKeeps(g, ok, budget);
      KickEffect(g, ok, budget);
      if g.job.Running? { return; }
      if g.wantConnect {
        StartQueued(ok);
        return;
      }
      if g.screenOff { return; }
      StartWish(ok);
    }

    method CloseWindow()
      modifies `g
      ensures g == Closed(old(g))
    {
      g := g.(waiting := false, connecting := false, busy := false);
    }

    method ShowArrival()
      modifies `g
      ensures g == Arrived(old(g))
    {
      MarkApActive(g.connectSsid);
      g := g.(sheet := NoSheet, wantScan := true);
    }

    method ShowMiss()
      modifies `g
      ensures g == Missed(old(g))
    {
      if g.sheet.NoSheet? {
        g := g.(sheet := Detail);
      }
    }

    /** Closes the confirm window on the network asked for, or on time. */
    method MaybeConfirmJoin(timedOut: bool)
      requires Valid()
      modifies `g
      ensures g == Confirm(old(g), timedOut)
      ensures Valid() && WindowTaken(old(g), g, timedOut)
    {
      hide AlreadyOn, Good, WindowTaken, Closed, Arrived, Missed;
      ConfirmKeeps(g, timedOut, budget);
      ConfirmEffect(g, timedOut, budget);
      if !g.waiting || g.connectSsid == "" { return; }
      if AlreadyOn(g.connected, g.live, g.connectSsid) {
        CloseWindow();
        ShowArrival();
        return;
      }
      if !ConfirmFails(timedOut, g.connected, g.live, g.connectSsid) { return; }
      CloseWindow();
      ShowMiss();
    }

    method ParseInfo(sawWifi: bool, up: bool, isBusy: bool)
      requires Valid()
      modifies `g
      ensures g == TakeInfo(old(g), sawWifi, up, isBusy)
      ensures Valid() && InfoTaken(old(g), g, sawWifi, up, isBusy)
    {
      hide Good, InfoTaken;
      InfoKeeps(g, sawWifi, up, isBusy, budget);
      InfoEffect(g, sawWifi, up, isBusy, budget);
      if !sawWifi { return; }
      g := g.(connected := up, busy := isBusy);
      if ForgetHolds(g.forgetSsid, g.connected, g.live) {
        g := g.(connected := false, busy := false, live := "");
      } else if !up && !isBusy && g.forgetSsid != "" {
        g := g.(forgetSsid := "");
      }
    }

    /** Fills the list row by row, never claiming the forgotten network active. */
    method ParseScan(found: seq<Ap>)
      requires Valid()
      modifies `g
      ensures g == TakeScan(old(g), found)
      ensures Valid() && ScanTaken(old(g), g, found)
    {
      hide ApplyActive, Good, ScanTaken, ActiveTaken;
      HeldKeeps(g, found, budget);
      ScanEffect(g, found, budget);
      var aps: seq<Ap> := [];
      while |aps| < |found|
        invariant |aps| <= |found| && aps == Held(found, g.forgetSsid)[..|aps|] && g == old(g)
        decreases |found| - |aps|
      {
        var row := found[|aps|];
        aps := aps + [row.(active := row.active && !SsidEq(g.forgetSsid, row.ssid))];
      }
      assert aps == Held(found, g.forgetSsid);
      g := g.(aps := aps);
      ApplyActiveAp();
    }

    method ParseLink(names: seq<string>)
      requires Valid()
      modifies `g
      ensures g == TakeLink(old(g), names)
      ensures Valid() && LinkTaken(old(g), g, names)
    {
      hide ApplySsid, Good, LinkTaken, NameTaken;
      LinkEffect(g, names, budget);
      var k := 0;
      while k < |names|
        invariant 0 <= k <= |names| && Valid()
        invariant TakeLink(g, names[k..]) == TakeLink(old(g), names)
      {
        ApplyWifiSsid(names[k]);
        assert names[k..][1..] == names[k + 1..];
        k := k + 1;
      }
    }

    method AwaitLive()
      modifies `g
      ensures g == OpenWindow(old(g))
    {
      g := g.(waiting := true, connecting := true, busy := true,
              wantConnect := g.wantConnect && !DropPending(g.connectSsid, g.pendSsid),
              sheet := if g.sheet.Pass? then Detail else g.sheet, wantInfo := true, wantLink := true);
    }

    method DropProbe()
      modifies `g
      ensures g == DropEmptyProbe(old(g)) && g.connectSsid == old(g).connectSsid && g.knownPsk == old(g).knownPsk
    {
      hide SsidEq;
      if SsidEq(g.pendSsid, g.connectSsid) && g.pendPass == "" {
        g := g.(wantConnect := false);
      }
    }

    method ForgetPassword(ssid: string)
      modifies `g
      ensures g == ForgetPsk(old(g), ssid)
    {
      hide SsidEq;
      if SsidEq(g.knownSsid, ssid) {
        g := g.(knownSsid := "", knownPsk := "");
      }
    }

    method OpenPassSheet()
      modifies `g
      ensures g == ShowPass(old(g))
    {
      g := g.(selectedSsid := if g.connectSsid != "" then g.connectSsid else g.selectedSsid, sheet := Pass);
    }

    method FailSheet()
      modifies `g
      ensures g == ShowFailure(old(g))
    {
      if !g.sheet.NoSheet? {
        g := g.(sheet := if g.needPass then Pass else Detail);
      }
    }

    /** A join has ended: on to the confirm window, a retry, the password sheet or the failure. */
    method FinishConnect(rc: int, out: string, ok: bool, ghost ended: Job)
      requires g.job.Idle? && IsJoin(ended) && Good(g.(job := ended), budget) && Answers(ended, rc, out)
      modifies `g
      ensures g == TakeJoin(old(g), rc, out, ok)
    {
      hide OnConnectJob, Confirm, JoinAs, OpenWindow, DropEmptyProbe, ForgetPsk, ShowPass, ShowFailure, Report, SsidEq;
      hide Good, JoinBegun, WindowTaken;
      var act := OnConnectJob(Report(g, rc, out));
      ghost var was, over := g.(job := ended), JoinOver(g);
      assert was.(job := Idle) == g;
      JoinOverKeeps(was, budget);
      var ssid, psk := g.connectSsid, g.knownPsk;
      g := g.(connecting := false, busy := false);
      match act {
        case Success =>
          SuccessIsNamed(was, rc, out, budget);
          WindowKeeps(over, budget);
          AwaitLive();
          MaybeConfirmJoin(false);
        case RetryPsk =>
          DropProbe();
          WifiConnect(ssid, true, psk, ok);
        case WrongPass =>
          ForgetPassword(ssid);
          OpenPassSheet();
        case OpenPass =>
          OpenPassSheet();
        case WaitPending =>
        case Fail =>
          FailSheet();
      }
    }

    method DropForgotten()
      modifies `g
      ensures g == LiveDropped(old(g))
    {
      hide SsidEq, ForgetHolds;
      if SsidEq(g.live, g.selectedSsid) || SsidEq(g.live, g.forgetSsid) || ForgetHolds(g.forgetSsid, true, g.live) {
        g := g.(connected := false, live := "");
      }
    }

    method Unlist()
      modifies `g
      ensures g == Unlisted(old(g))
    {
      hide MarkInactive, Gone;
      MarkApInactive(Gone(g));
      g := g.(forgetting := false);
    }

    method ShowList()
      modifies `g
      ensures g == Listed(old(g))
    {
      g := g.(sheet := List, wantInfo := true, wantScan := true);
    }

    method FinishForget(failed: bool)
      modifies `g
      ensures g == TakeForget(old(g), failed)
    {
      hide Unlisted, LiveDropped, ForgetPsk, Listed;
      var ssid := g.selectedSsid;
      if failed {
        g := g.(forgetting := false, sheet := Detail);
        return;
      }
      Unlist();
      DropForgotten();
      ForgetPassword(ssid);
      ShowList();
    }

    method WantLink()
      modifies `g
      ensures g == LinkWanted(old(g))
    {
      g := g.(wantLink := g.wantLink || g.connected || g.busy || g.waiting);
    }

    method FinishInfo(saw: bool, up: bool, isBusy: bool, timedOut: bool)
      requires Valid()
      modifies `g
      ensures g == EndInfo(TakeInfo(old(g), saw, up, isBusy), timedOut)
    {
      hide TakeInfo, Confirm, Good, InfoTaken, WindowTaken, LinkWanted;
      ParseInfo(saw, up, isBusy);
      LinkWantedKeeps(g, budget);
      WantLink();
      MaybeConfirmJoin(timedOut);
    }

    method FinishScan(found: seq<Ap>, timedOut: bool)
      requires Valid()
      modifies `g
      ensures g == Confirm(TakeScan(old(g), found), timedOut)
    {
      hide TakeScan, Confirm, Good, ScanTaken, WindowTaken;
      ParseScan(found);
      MaybeConfirmJoin(timedOut);
    }

    method FinishLink(names: seq<string>, timedOut: bool)
      requires Valid()
      modifies `g
      ensures g == EndLink(Confirm(TakeLink(old(g), names), timedOut))
    {
      hide TakeLink, Confirm, Good, LinkTaken, WindowTaken;
      ParseLink(names);
      MaybeConfirmJoin(timedOut);
      g := g.(wantInfo := g.wantInfo || g.waiting);
    }

    /** Takes the report of a process that ended, with its slot already free. */
    method TakeReport(x: Exit, timedOut: bool, ok: bool, ghost ended: Job)
      requires g.job.Idle? && ended.Running? && ended.kind == KindOf(x) && Good(g.(job := ended), budget)
      requires x.ConnectDone? ==> Answers(ended, x.rc, x.out)
      modifies `g
      ensures g == TakeExit(old(g), x, timedOut, ok)
    {
      hide TakeInfo, TakeScan, TakeLink, TakeJoin, TakeForget, Confirm, EndInfo, EndLink, Good;
      assert g.(job := ended).(job := Idle) == g;
      if !IsJoin(ended) && !IsForget(ended) {
        SlotFreed(g.(job := ended), budget);
      }
      match x {
        case RadioDone =>
          g := g.(wantInfo := true, wantScan := true);
        case InfoDone(saw, up, isBusy) =>
          FinishInfo(saw, up, isBusy, timedOut);
        case ScanDone(found) =>
          FinishScan(found, timedOut);
        case LinkDone(names) =>
          FinishLink(names, timedOut);
        case ConnectDone(rc, out) =>
          FinishConnect(rc, out, ok, ended);
        case ForgetDone(failed) =>
          FinishForget(failed);
      }
    }

    method PollJob(x: Exit, timedOut: bool, ok: bool, okNext: bool)
      requires Valid() && Possible(g, JobEnded(x, timedOut, ok, okNext))
      modifies `g
      ensures g == WifiState.PollJob(old(g), x, timedOut, ok, okNext)
      ensures Valid() && EndTaken(old(g), g, x, timedOut, okNext)
    {
      hide TakeExit, Kick, Good, WorkTaken, NeedPw, EndTaken;
      EndEffect(g, x, timedOut, ok, okNext, budget);
      if !(g.job.Running? && g.job.kind == KindOf(x)) {
        assert EndTaken(g, g, x, timedOut, okNext);
        return;
      }
      ExitKeeps(g, x, timedOut, ok, budget);
      ghost var ended := g.job;
      assert g.(job := Idle).(job := ended) == g;
      g := g.(job := Idle);
      TakeReport(x, timedOut, ok, ended);
      KickPending(okNext);
    }

    /** Calls the handler an event is for. */
    method Dispatch(e: Event)
      requires Valid() && Possible(g, e)
      modifies this
      ensures g == Step(old(g), e) && budget == old(budget) + One(Asks(e))
    {
      hide JoinPicked, SubmitPass, ForgetNetwork, StartScan, StartInfo, StartRadio, Kick, Confirm, ApplyActive;
      hide WifiState.PollJob, Good, Possible;
      hide TapTaken, PasswordTaken, ForgetTaken, WorkTaken, WindowTaken, ActiveTaken, EndTaken, StartTaken;
      match e {
        case JoinTapped(enterprise, ok) => WifiJoinPicked(enterprise, ok);
        case PasswordSubmitted(password, enterprise, ok) => WifiSubmitPass(password, enterprise, ok);
        case ForgetTapped(ok) => WifiForget(g.selectedSsid, ok);
        case RowSelected(row) =>
          if row < |g.aps| {
            g := g.(selectedSsid := g.aps[row].ssid);
          }
        case ScanRequested(ok) => WifiScan(ok);
        case InfoRequested(ok) => WifiInfo(ok);
        case RadioRequested(ok) => WifiRadio(ok);
        case Kicked(ok) => KickPending(ok);
        case ConfirmChecked(timedOut) => MaybeConfirmJoin(timedOut);
        case SignalSampled => ApplyActiveAp();
        case SheetChanged(sheet) => g := g.(sheet := sheet);
        case ScreenChanged(off) => g := g.(screenOff := off);
        case JobEnded(report, timedOut, ok, okNext) => PollJob(report, timedOut, ok, okNext);
      }
    }

    /** Every event does what it is for, keeps `Valid`, and asks for a join only by a join tap or a
        submitted password. */
    method Handle(e: Event)
      requires Valid() && Possible(g, e)
      modifies this
      ensures g == Step(old(g), e) && budget == old(budget) + One(Asks(e))
      ensures Valid() && EventTaken(old(g), g, e)
      ensures !old(g).stuck && Starts(e) ==> !g.stuck
    {
      hide Step, Good, Possible, Starts, EventTaken;
      StepKeeps(g, e, budget);
      EventEffect(g, e, budget);
      Dispatch(e);
    }

    /** The main loop over any events the join script allows: every property of runs holds of it. */
    method MainLoop(events: seq<Event>)
      requires Valid() && g == START && budget == 0 && PossibleRun(START, events)
      modifies this
      ensures Valid() && g == Run(START, events) && budget == Asked(events)
      ensures forall k :: 0 <= k < |events| ==>
                EventTaken(Run(START, events[..k]), Run(START, events[..k + 1]), events[k])
      ensures g.joinsStarted <= Asked(events) && !(g.connecting && g.forgetting)
      ensures (g.connecting <==> (IsJoin(g.job) != g.waiting)) && !(IsJoin(g.job) && g.waiting) <==> !g.stuck
      ensures IsJoin(g.job) ==> g.job.name == g.connectSsid && (g.job.name == "" ==> g.job.pass != "")
      ensures AllStart(events) ==> !g.stuck
      ensures g.forgetSsid != "" ==> g.live != g.forgetSsid && !IsCurrent(g, g.forgetSsid)
    {
      hide Step, Asks, IsCurrent, Good, Possible, AllStart, EventTaken;
      var k := 0;
      while k < |events|
        invariant 0 <= k <= |events| && PossibleRun(START, events[..k])
        invariant Valid() && g == Run(START, events[..k]) && budget == Asked(events[..k])
      {
        assert events[..k + 1][..k] == events[..k];
        PrefixPossible(events, k + 1);
        Handle(events[k]);
        k := k + 1;
      }
      assert events[..k] == events;
      RunEffect(START, events, 0);
      ModesExclusive(events);
      JoinsAreAskedFor(events);
      if g.forgetSsid != "" {
        ForgottenStaysAway(events);
      }
    }
  }

  lemma {:induction false} PrefixPossible(events: seq<Event>, k: nat)
    requires k <= |events| && PossibleRun(START, events)
    ensures PossibleRun(START, events[..k])
    decreases |events|
  {
    hide Possible, Run;
    if k == |events| {
      assert events[..k] == events;
    } else {
      PrefixPossible(events[..|events| - 1], k);
      assert events[..|events| - 1][..k] == events[..k];
    }
  }
}
