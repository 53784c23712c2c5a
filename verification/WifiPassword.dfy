/** What becomes of a password once it is typed: what it joins, and what it takes to lose it. */
module WifiPassword {
  import opened Common
  import opened WifiFlow
  import opened WifiState
  import opened WifiRuns
  import opened WifiEffects

  // ---------------------------------------------------------------- what a password joins

  lemma NoJoinRuns(s: State, n: nat)
    requires Good(s, n) && !s.connecting
    ensures !IsJoin(s.job)
  {
    hide HeldBack;
  }

  /** A password typed while no join is under way joins its network exactly if the buffer for the
      network joined last is empty. */
  lemma SubmitJoinsItsNetworkExactly(s: State, password: string, enterprise: bool, n: nat)
    requires Good(s, n) && Accepts(s, password, enterprise) && !s.connecting
    ensures var r := SubmitPass(s, password, enterprise, true);
            && (r.job == Running(Connect, PassSsid(s.connectSsid, s.selectedSsid), password) <==> s.connectSsid == "")
            && (s.connectSsid != "" ==> r.job == Running(Connect, "", password) && r.connectSsid == "")
  {
    hide Good, SubmitPass;
    NoJoinRuns(s, n);
    SubmitEffect(s, password, enterprise, true, n);
  }

  /** What running a wish leaves alone. */
  predicate ViewKept(s: State, r: State) {
    && r.connecting == s.connecting && r.forgetting == s.forgetting && r.sheet == s.sheet
    && r.connectSsid == s.connectSsid && r.selectedSsid == s.selectedSsid
  }

  lemma StartKeepsView(s: State, kind: Kind, ok: bool, wish: State)
    requires ViewKept(s, wish)
    ensures ViewKept(s, TryStart(s, kind, ok, wish))
  {
  }

  lemma ScanKeepsView(s: State, ok: bool)
    ensures ViewKept(s, StartScan(s.(wantScan := false), ok))
  {
    hide TryStart;
    var t := s.(wantScan := false);
    StartKeepsView(t, Scan, ok, t.(wantScan := true));
  }

  lemma LinkKeepsView(s: State, ok: bool)
    ensures ViewKept(s, StartLink(s.(wantLink := false), ok))
  {
    hide TryStart;
    var t := s.(wantLink := false);
    StartKeepsView(t, Link, ok, t.(wantLink := true));
  }

  lemma InfoKeepsView(s: State, ok: bool)
    ensures ViewKept(s, StartInfo(s.(wantInfo := false), ok))
  {
    hide TryStart;
    var t := s.(wantInfo := false);
    StartKeepsView(t, Info, ok, t.(wantInfo := true));
  }

  lemma KickKeepsView(s: State, ok: bool)
    requires !s.wantConnect
    ensures ViewKept(s, Kick(s, ok))
  {
    hide StartScan, StartLink, StartInfo, JoinQueued;
    ScanKeepsView(s, ok);
    LinkKeepsView(s, ok);
    InfoKeepsView(s, ok);
  }

  /** A probe without a password, watched by the user, with nothing queued behind it. */
  predicate Probing(s: State) {
    && IsJoin(s.job) && s.job.pass == "" && !s.wantConnect && !s.sheet.NoSheet?
    && !AlreadyOn(s.connected, s.live, s.connectSsid)
  }

  lemma SheetShown(s: State)
    requires s.connectSsid != ""
    ensures var r := ShowPass(JoinOver(s.(job := Idle)));
            && r.sheet.Pass? && !r.connecting && !r.wantConnect == !s.wantConnect && r.forgetting == s.forgetting
            && r.selectedSsid == r.connectSsid == s.connectSsid
  {
  }

  /** A probe's request for a password opens the sheet for its network. */
  lemma RequestOpensSheet(s: State, rc: int, out: string, timedOut: bool, ok: bool, okNext: bool, n: nat)
    requires Good(s, n) && Probing(s) && Answers(s.job, rc, out) && NeedPw(rc, out) && !WrongPw(rc, out)
    ensures var r := WifiState.PollJob(s, ConnectDone(rc, out), timedOut, ok, okNext);
            && Good(r, n) && r.sheet.Pass? && !r.connecting && !r.forgetting
            && r.selectedSsid == r.connectSsid == s.connectSsid != ""
  {
    hide HeldBack, Kick, OnConnectJob, NeedPw, WrongPw, ShowPass, JoinOver;
    OnlyEvidenceDecides(s, rc, out, n);
    JoinEndKeeps(s, rc, out, ok, n);
    var t := TakeJoin(s.(job := Idle), rc, out, ok);
    NoWrongRequest(rc, out);
    assert t == ShowPass(JoinOver(s.(job := Idle)));
    SheetShown(s);
    KickKeeps(t, okNext, n);
    KickKeepsView(t, okNext);
  }

  lemma NoWrongRequest(rc: int, out: string)
    ensures NeedPw(rc, out) ==> !JobOk(rc, out)
  {
  }

  /** So the password typed on a sheet that a probe opened starts a join of no network, whatever the
      network and the password: it is remembered and goes astray. */
  lemma AskedPasswordGoesAstray(s: State, rc: int, out: string, timedOut: bool, ok: bool, okNext: bool,
                                password: string, n: nat)
    requires Good(s, n) && Probing(s) && Answers(s.job, rc, out) && NeedPw(rc, out) && !WrongPw(rc, out)
    requires |password| >= MIN_PASSWORD
    ensures var asked := WifiState.PollJob(s, ConnectDone(rc, out), timedOut, ok, okNext);
            var r := SubmitPass(asked, password, false, true);
            && r.job == Running(Connect, "", password) && r.connectSsid == "" && Good(r, n + 1)
            && r.knownSsid == s.connectSsid && r.knownPsk == password && r.selectedSsid == s.connectSsid
  {
    hide Good, NeedPw, WrongPw, Probing, Answers, WifiState.PollJob, SubmitPass;
    RequestOpensSheet(s, rc, out, timedOut, ok, okNext, n);
    var asked := WifiState.PollJob(s, ConnectDone(rc, out), timedOut, ok, okNext);
    NoJoinRuns(asked, n);
    SubmitEffect(asked, password, false, true, n);
    SubmitKeeps(asked, password, false, true, n);
  }

  /** A join of no network just fails. */
  lemma NamelessJoinFails(s: State, rc: int, out: string, n: nat)
    requires Good(s, n) && IsJoin(s.job) && s.job.name == "" && Answers(s.job, rc, out)
    ensures OnConnectJob(Report(s.(job := Idle), rc, out)).Fail?
  {
    hide HeldBack, NeedPw, WrongPw, JobOk;
  }

  lemma FailureShown(s: State)
    ensures var r := ShowFailure(JoinOver(s.(job := Idle)));
            && !r.connecting && r.wantConnect == s.wantConnect && r.forgetting == s.forgetting
            && r.selectedSsid == s.selectedSsid && r.connectSsid == s.connectSsid
  {
  }

  /** And the same password typed once more joins the selected network. */
  lemma SecondPasswordJoins(s: State, rc: int, out: string, timedOut: bool, ok: bool, okNext: bool,
                            password: string, n: nat)
    requires Good(s, n) && IsJoin(s.job) && s.job.name == "" && Answers(s.job, rc, out) && !s.wantConnect
    requires s.selectedSsid != "" && |password| >= MIN_PASSWORD
    ensures var over := WifiState.PollJob(s, ConnectDone(rc, out), timedOut, ok, okNext);
            SubmitPass(over, password, false, true).job == Running(Connect, s.selectedSsid, password)
  {
    hide HeldBack, Kick, OnConnectJob, NeedPw, WrongPw, JobOk, ShowFailure, JoinOver, SubmitPass;
    NamelessJoinFails(s, rc, out, n);
    JoinEndKeeps(s, rc, out, ok, n);
    var t := TakeJoin(s.(job := Idle), rc, out, ok);
    FailureShown(s);
    KickKeeps(t, okNext, n);
    KickKeepsView(t, okNext);
    SubmitEffect(Kick(t, okNext), password, false, true, n);
  }

  lemma OneMoreEvent(events: seq<Event>, e: Event)
    requires PossibleRun(START, events) && Possible(Run(START, events), e)
    ensures PossibleRun(START, events + [e]) && Run(START, events + [e]) == Step(Run(START, events), e)
  {
    assert (events + [e])[..|events|] == events;
  }

  /** A list of one secured network. */
  function OneNetwork(): State {
    START.(aps := [Ap("home", false)])
  }

  /** The HUD probing it, with its sheet open. */
  function Probe(): State {
    OneNetwork().(selectedSsid := "home", sheet := Detail, connecting := true, busy := true,
              connectSsid := "home", job := Running(Connect, "home", ""), joinsStarted := 1)
  }

  lemma ScannedOnce()
    ensures Step(START, ScanRequested(true)) == START.(job := Running(Scan, "", ""))
  {
  }

  lemma NetworkListed()
    ensures TakeScan(START, [Ap("home", false)]) == OneNetwork()
  {
    hide ApplySsid;
    assert Held([Ap("home", false)], "") == [Ap("home", false)];
    assert FirstInUse([Ap("home", false)], "", "", 0) == 1;
  }

  lemma ScanEnded()
    ensures Step(START.(job := Running(Scan, "", "")), JobEnded(ScanDone([Ap("home", false)]), false, true, true))
         == OneNetwork()
  {
    hide TakeScan;
    NetworkListed();
    assert START.(job := Running(Scan, "", "")).(job := Idle) == START;
  }

  lemma TappedOnce()
    ensures Step(OneNetwork(), RowSelected(0)) == OneNetwork().(selectedSsid := "home")
    ensures var s := OneNetwork().(selectedSsid := "home");
            Step(s, SheetChanged(Detail)) == s.(sheet := Detail)
            && Step(s.(sheet := Detail), JoinTapped(false, true)) == Probe()
  {
  }

  lemma FromStartToProbe() returns (events: seq<Event>)
    ensures PossibleRun(START, events) && Run(START, events) == Probe()
  {
    hide Step, Probe, OneNetwork;
    var scan := JobEnded(ScanDone([Ap("home", false)]), false, true, true);
    ScannedOnce();
    ScanEnded();
    TappedOnce();
    events := [];
    OneMoreEvent(events, ScanRequested(true));
    events := events + [ScanRequested(true)];
    OneMoreEvent(events, scan);
    events := events + [scan];
    OneMoreEvent(events, RowSelected(0));
    events := events + [RowSelected(0)];
    OneMoreEvent(events, SheetChanged(Detail));
    events := events + [SheetChanged(Detail)];
    OneMoreEvent(events, JoinTapped(false, true));
    events := events + [JoinTapped(false, true)];
  }

  lemma ScriptAsks()
    ensures NeedPw(2, "NEED_PASSWORD") && !WrongPw(2, "NEED_PASSWORD")
  {
    var out := "NEED_PASSWORD";
    LacksFirst(out, "已连接");
    LacksFirst(out, "密码不对");
    LacksFirst(out, "psk mismatch");
    forall i: nat | i <= |out| ensures !OccursAt(out, "WRONG_PASSWORD", i) {
    }
  }

  /** It happens from the start: scan, select, open the sheet, tap, be asked, type. */
  lemma FirstPasswordGoesAstray(password: string) returns (events: seq<Event>)
    requires |password| >= MIN_PASSWORD
    ensures PossibleRun(START, events)
    ensures var s := Run(START, events);
            s.job == Running(Connect, "", password) && s.knownSsid == "home" && s.selectedSsid == "home"
  {
    hide Run, PossibleRun, NeedPw, WrongPw, WifiState.PollJob, SubmitPass, Good;
    events := FromStartToProbe();
    RunFromStart(events);
    ScriptAsks();
    var asks := JobEnded(ConnectDone(2, "NEED_PASSWORD"), false, true, true);
    AskedPasswordGoesAstray(Probe(), 2, "NEED_PASSWORD", false, true, true, password, Asked(events));
    OneMoreEvent(events, asks);
    events := events + [asks];
    OneMoreEvent(events, PasswordSubmitted(password, false, true));
    events := events + [PasswordSubmitted(password, false, true)];
  }

  // ---------------------------------------------------------------- the remembered password

  predicate PskKept(s: State, r: State) {
    r.knownSsid == s.knownSsid && r.knownPsk == s.knownPsk
  }

  lemma StartKeepsPsk(s: State, kind: Kind, ok: bool, wish: State)
    requires PskKept(s, wish)
    ensures PskKept(s, TryStart(s, kind, ok, wish))
  {
  }

  lemma KickKeepsPsk(s: State, ok: bool)
    requires s.wantConnect ==> s.pendSsid != ""
    ensures PskKept(s, Kick(s, ok))
  {
    hide JoinAs, TryStart;
    if s.job.Idle? {
      if s.wantConnect {
        JoinEffect(s.(wantConnect := false), s.pendSsid, s.pendPass, ok);
      } else {
        StartKeepsPsk(s.(wantScan := false), Scan, ok, s.(wantScan := true));
        StartKeepsPsk(s.(wantLink := false), Link, ok, s.(wantLink := true));
        StartKeepsPsk(s.(wantInfo := false), Info, ok, s.(wantInfo := true));
      }
    }
  }

  lemma ConfirmKeepsPsk(s: State, timedOut: bool)
    ensures PskKept(s, Confirm(s, timedOut))
  {
    hide Confirm;
    ConfirmHolds(s, timedOut);
  }

  lemma ReportedKeepsPsk(s: State, up: bool, isBusy: bool)
    ensures PskKept(s, Reported(s, up, isBusy))
  {
  }

  lemma ReleasedKeepsPsk(s: State)
    ensures PskKept(s, Disowned(s)) && PskKept(s, Released(s)) && PskKept(s, LinkWanted(s))
  {
  }

  lemma InfoKeepsPsk(s: State, saw: bool, up: bool, isBusy: bool, timedOut: bool)
    ensures PskKept(s, EndInfo(TakeInfo(s, saw, up, isBusy), timedOut))
  {
    hide Confirm, ForgetHolds, Reported, Disowned, Released, LinkWanted;
    ReportedKeepsPsk(s, up, isBusy);
    ReleasedKeepsPsk(Reported(s, up, isBusy));
    ReleasedKeepsPsk(TakeInfo(s, saw, up, isBusy));
    ConfirmKeepsPsk(LinkWanted(TakeInfo(s, saw, up, isBusy)), timedOut);
  }

  lemma LinkKeepsPsk(s: State, names: seq<string>, timedOut: bool, n: nat)
    requires Good(s, n)
    ensures PskKept(s, EndLink(Confirm(TakeLink(s, names), timedOut)))
  {
    hide Confirm, TakeLink, Good, SomeEndsHold, LiveFromName;
    LinkEffect(s, names, n);
    ConfirmKeepsPsk(TakeLink(s, names), timedOut);
  }

  lemma ScanKeepsPsk(s: State, found: seq<Ap>, timedOut: bool, n: nat)
    requires Good(s, n)
    ensures PskKept(s, Confirm(TakeScan(s, found), timedOut))
  {
    hide Confirm, TakeScan, Good, NamedInUse, LiveFromRow, RowsTaken;
    ScanEffect(s, found, n);
    ConfirmKeepsPsk(TakeScan(s, found), timedOut);
  }

  lemma ReportKeepsPsk(s: State, x: Exit, timedOut: bool, ok: bool, n: nat)
    requires Good(s, n) && !x.ConnectDone? && !x.ForgetDone?
    ensures PskKept(s, TakeExit(s, x, timedOut, ok))
  {
    hide Good, TakeInfo, TakeScan, TakeLink, EndInfo, EndLink, Confirm;
    match x {
      case RadioDone =>
      case InfoDone(saw, up, isBusy) => InfoKeepsPsk(s, saw, up, isBusy, timedOut);
      case ScanDone(found) => ScanKeepsPsk(s, found, timedOut, n);
      case LinkDone(names) => LinkKeepsPsk(s, names, timedOut, n);
    }
  }

  lemma WindowKeepsPsk(s: State)
    ensures PskKept(s, OpenWindow(s)) && PskKept(s, JoinOver(s))
    ensures PskKept(s, ShowPass(s)) && PskKept(s, ShowFailure(s))
  {
    hide DropPending;
  }

  lemma JoinEndKeepsPsk(s: State, rc: int, out: string, ok: bool)
    requires !OnConnectJob(Report(s, rc, out)).RetryPsk? && !OnConnectJob(Report(s, rc, out)).WrongPass?
    ensures PskKept(s, TakeJoin(s, rc, out, ok))
  {
    hide OnConnectJob, Confirm, OpenWindow, ForgetPsk, ShowPass, ShowFailure, JoinOver, JoinAs;
    var over := JoinOver(s);
    WindowKeepsPsk(s);
    WindowKeepsPsk(over);
    ConfirmKeepsPsk(OpenWindow(over), false);
  }

  lemma ForgetPskIsFor(s: State, ssid: string)
    requires !PskKept(s, ForgetPsk(s, ssid))
    ensures SsidEq(s.knownSsid, ssid)
  {
  }

  lemma BlamedIsJoined(s: State, rc: int, out: string, ok: bool)
    requires OnConnectJob(Report(s, rc, out)).WrongPass? && !PskKept(s, TakeJoin(s, rc, out, ok))
    ensures SsidEq(s.knownSsid, s.connectSsid)
  {
    hide OnConnectJob, ForgetPsk, JoinOver, ShowPass, SsidEq;
    var over := JoinOver(s);
    WindowKeepsPsk(s);
    WindowKeepsPsk(ForgetPsk(over, s.connectSsid));
    ForgetPskIsFor(over, s.connectSsid);
  }

  lemma UnlistedKeepsPsk(s: State)
    ensures PskKept(s, Unlisted(s)) && PskKept(s, Listed(s))
  {
    hide MarkInactive, Gone;
  }

  lemma LiveDroppedKeepsPsk(s: State)
    ensures PskKept(s, LiveDropped(s))
  {
    hide DropsLive;
    if DropsLive(s) {
      assert LiveDropped(s) == s.(connected := false, live := "");
    } else {
      assert LiveDropped(s) == s;
    }
  }

  lemma ForgottenIsSelected(s: State, failed: bool)
    requires !PskKept(s, TakeForget(s, failed))
    ensures !failed && SsidEq(s.knownSsid, s.selectedSsid)
  {
    hide Unlisted, LiveDropped, ForgetPsk, Listed, SsidEq;
    if !failed {
      var d := LiveDropped(Unlisted(s));
      UnlistedKeepsPsk(s);
      LiveDroppedKeepsPsk(Unlisted(s));
      UnlistedKeepsPsk(ForgetPsk(d, s.selectedSsid));
      ForgetPskIsFor(d, s.selectedSsid);
    }
  }

  /** A report that costs the remembered password: the script blamed the very password of that
      network, or that network was forgotten. */
  predicate Unlearns(s: State, x: Exit) {
    match x
    case ConnectDone(rc, out) => WrongPw(rc, out) && SsidEq(s.knownSsid, s.connectSsid)
    case ForgetDone(failed) => !failed && SsidEq(s.knownSsid, s.selectedSsid)
    case _ => false
  }

  lemma ExitUnlearns(s: State, x: Exit, timedOut: bool, ok: bool, n: nat)
    requires Good(s, n) && s.job.Running? && s.job.kind == KindOf(x)
    requires x.ConnectDone? ==> Answers(s.job, x.rc, x.out)
    ensures PskKept(s, TakeExit(s.(job := Idle), x, timedOut, ok)) || Unlearns(s, x)
  {
    hide Good, TakeJoin, TakeForget, NeedPw, WrongPw, OnConnectJob, Report, SsidEq, JobOk;
    hide TakeInfo, TakeScan, TakeLink, EndInfo, EndLink, Confirm;
    var free := s.(job := Idle);
    if x.ConnectDone? {
      OnlyEvidenceDecides(s, x.rc, x.out, n);
      if OnConnectJob(Report(free, x.rc, x.out)).WrongPass? {
        if !PskKept(free, TakeJoin(free, x.rc, x.out, ok)) {
          BlamedIsJoined(free, x.rc, x.out, ok);
        }
      } else {
        JoinEndKeepsPsk(free, x.rc, x.out, ok);
      }
    } else if x.ForgetDone? {
      if !PskKept(free, TakeForget(free, x.failed)) {
        ForgottenIsSelected(free, x.failed);
      }
    } else {
      SlotFreed(s, n);
      ReportKeepsPsk(free, x, timedOut, ok, n);
    }
  }

  lemma EndUnlearns(s: State, x: Exit, timedOut: bool, ok: bool, okNext: bool, n: nat)
    requires Good(s, n) && Possible(s, JobEnded(x, timedOut, ok, okNext))
    ensures PskKept(s, WifiState.PollJob(s, x, timedOut, ok, okNext)) || Unlearns(s, x)
  {
    hide TakeExit, Kick, HeldBack, NeedPw, Unlearns;
    if s.job.Running? && s.job.kind == KindOf(x) {
      ExitKeeps(s, x, timedOut, ok, n);
      ExitUnlearns(s, x, timedOut, ok, n);
      KickKeepsPsk(TakeExit(s.(job := Idle), x, timedOut, ok), okNext);
    }
  }

  lemma TapKeepsPsk(s: State, enterprise: bool, ok: bool)
    ensures PskKept(s, JoinPicked(s, enterprise, ok))
  {
    hide JoinAs, IsCurrent, UseSessionPsk;
    if s.selectedSsid != "" {
      JoinEffect(UsingPass(s, true), s.selectedSsid, s.knownPsk, ok);
      JoinEffect(UsingPass(s, false), s.selectedSsid, "", ok);
    }
  }

  lemma ForgetTapKeepsPsk(s: State, ssid: string, ok: bool)
    ensures PskKept(s, ForgetNetwork(s, ssid, ok))
  {
    hide MarkInactive, SsidEq;
  }

  lemma ActiveKeepsPsk(s: State, n: nat)
    requires Good(s, n)
    ensures PskKept(s, ApplyActive(s))
  {
    hide Good, ApplyActive, NamedInUse, LiveFromRow;
    ActiveEffect(s, n);
  }

  lemma BegunKeepsPass(s: State, r: State, name: string, pass: string, ok: bool)
    requires JoinBegun(s, r, name, pass, ok)
    ensures SamePass(s, r)
  {
  }

  lemma KnownIs(s: State, ssid: string, password: string)
    ensures KnownNow(s, ssid, password).knownSsid == ssid && KnownNow(s, ssid, password).knownPsk == password
  {
  }

  lemma QueuedKeepsPass(s: State, ssid: string, password: string)
    ensures PskKept(s, s.(wantConnect := true, pendSsid := ssid, pendPass := password))
  {
  }

  lemma SubmitLearns(s: State, password: string, enterprise: bool, ok: bool, n: nat)
    requires Good(s, n)
    ensures var r := SubmitPass(s, password, enterprise, ok);
            PskKept(s, r) || Learns(s, r, password, enterprise)
  {
    hide Good, SubmitPass, JoinBegun, KnownNow;
    var ssid := PassSsid(s.connectSsid, s.selectedSsid);
    SubmitEffect(s, password, enterprise, ok, n);
    KnownIs(s, ssid, password);
    if Accepts(s, password, enterprise) {
      if s.connecting {
        QueuedKeepsPass(KnownNow(s, ssid, password), ssid, password);
      } else {
        BegunKeepsPass(KnownNow(s, ssid, password), SubmitPass(s, password, enterprise, ok),
                       if s.connectSsid == "" then ssid else "", password, ok);
      }
    }
  }

  predicate Learns(s: State, r: State, password: string, enterprise: bool) {
    Accepts(s, password, enterprise)
    && r.knownSsid == PassSsid(s.connectSsid, s.selectedSsid) && r.knownPsk == password
  }

  lemma QueueHasName(s: State, n: nat)
    requires Good(s, n) && s.wantConnect
    ensures s.pendSsid != ""
  {
    hide HeldBack;
  }

  lemma WishKeepsPsk(s: State, e: Event)
    requires e.ScanRequested? || e.InfoRequested? || e.RadioRequested?
    ensures PskKept(s, Step(s, e))
  {
    hide TryStart;
    StartKeepsPsk(s, Scan, e.ok, s.(wantScan := true));
    StartKeepsPsk(s, Info, e.ok, s.(wantInfo := true));
    StartKeepsPsk(s, Radio, e.ok, s.(wantInfo := true));
  }

  lemma ViewKeepsPsk(s: State, e: Event)
    requires e.RowSelected? || e.SheetChanged? || e.ScreenChanged?
    ensures PskKept(s, Step(s, e))
  {
  }

  /** The remembered password is replaced by a submitted one, and lost only with a report that blames
      it or forgets its network: no failed start, timeout, scan or other failure costs it. */
  lemma PasswordLostOnlyOnEvidence(s: State, e: Event, n: nat)
    requires Good(s, n) && Possible(s, e)
    ensures PskKept(s, Step(s, e)) || (e.JobEnded? && Unlearns(s, e.report))
            || (e.PasswordSubmitted? && Learns(s, Step(s, e), e.password, e.enterprise))
  {
    hide Good, JoinPicked, SubmitPass, ForgetNetwork, ApplyActive, PollJob, Kick, Confirm, Unlearns, Possible;
    hide StartScan, StartInfo, StartRadio, PskKept, Learns;
    match e {
      case JoinTapped(enterprise, ok) => TapKeepsPsk(s, enterprise, ok);
      case PasswordSubmitted(password, enterprise, ok) => SubmitLearns(s, password, enterprise, ok, n);
      case ForgetTapped(ok) => ForgetTapKeepsPsk(s, s.selectedSsid, ok);
      case RowSelected(_) => ViewKeepsPsk(s, e);
      case ScanRequested(_) => WishKeepsPsk(s, e);
      case InfoRequested(_) => WishKeepsPsk(s, e);
      case RadioRequested(_) => WishKeepsPsk(s, e);
      case Kicked(ok) =>
        if s.wantConnect {
          QueueHasName(s, n);
        }
        KickKeepsPsk(s, ok);
      case ConfirmChecked(timedOut) => ConfirmKeepsPsk(s, timedOut);
      case SignalSampled => ActiveKeepsPsk(s, n);
      case SheetChanged(_) => ViewKeepsPsk(s, e);
      case ScreenChanged(_) => ViewKeepsPsk(s, e);
      case JobEnded(x, timedOut, ok, okNext) => EndUnlearns(s, x, timedOut, ok, okNext, n);
    }
  }
}
