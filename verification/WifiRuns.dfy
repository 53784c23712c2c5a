/** What the HUD's Wi-Fi handlers keep, over runs in which taps, queued passwords, aborts and process
    ends come in any order. */
module WifiRuns {
  import opened Common
  import opened WifiFlow
  import opened WifiState

  /** Connecting means one thing at a time: a join process, the confirm window, or a join that could
      not start. Forgetting means a forget process. Never both. The process joins the network shown; a
      join of no network has a password, and never gets to the window. */
  predicate OneMode(s: State) {
    && (s.connecting <==> IsJoin(s.job) || s.waiting || s.stuck)
    && !(IsJoin(s.job) && s.waiting) && !(s.stuck && (IsJoin(s.job) || s.waiting))
    && (s.forgetting <==> IsForget(s.job))
    && !(s.connecting && s.forgetting)
    && (s.connecting ==> s.forgetSsid == "") && (s.waiting ==> s.connectSsid != "")
    && (IsJoin(s.job) ==> s.job.name == s.connectSsid && (s.job.name == "" ==> s.job.pass != ""))
    && (s.wantConnect ==> s.pendSsid != "" && s.pendPass != "")
  }

  /** A forgotten network is neither live nor marked in use. */
  predicate HeldBack(forgotten: string, live: string, aps: seq<Ap>) {
    forgotten != "" ==>
      live != forgotten && forall i :: 0 <= i < |aps| && aps[i].ssid == forgotten ==> !aps[i].active
  }

  predicate HoldKept(s: State) {
    HeldBack(s.forgetSsid, s.live, s.aps)
  }

  /** Joins started, plus the one a queued password will start. */
  predicate WithinBudget(s: State, n: nat) {
    s.joinsStarted + One(s.wantConnect) <= n
  }

  /** A password is at hand for the join under way. */
  predicate PasswordKnown(s: State) {
    s.needPass || UseSessionPsk(s.connectSsid, s.knownSsid, s.knownPsk)
  }

  /** An empty probe runs only for a network whose password is not known, and one that becomes known
      meanwhile is queued behind it. */
  predicate ProbeAnswered(s: State) {
    IsJoin(s.job) && s.job.pass == "" && PasswordKnown(s) ==>
      s.wantConnect && s.pendPass != "" && SsidEq(s.pendSsid, s.connectSsid)
  }

  /** The join script asks for a password only if it was given none, and given no name it neither
      succeeds, asks for a password nor blames one. */
  predicate Answers(j: Job, rc: int, out: string)
    requires IsJoin(j)
  {
    && (NeedPw(rc, out) ==> j.pass == "")
    && (j.name == "" ==> !JobOk(rc, out) && !NeedPw(rc, out) && !WrongPw(rc, out))
  }

  predicate Possible(s: State, e: Event) {
    e.JobEnded? && e.report.ConnectDone? && IsJoin(s.job) ==> Answers(s.job, e.report.rc, e.report.out)
  }

  predicate PossibleRun(s: State, events: seq<Event>) {
    events == [] ||
      (PossibleRun(s, events[..|events| - 1]) && Possible(Run(s, events[..|events| - 1]), events[|events| - 1]))
  }

  predicate Core(s: State, n: nat) {
    OneMode(s) && HoldKept(s) && WithinBudget(s, n)
  }

  predicate Good(s: State, n: nat) {
    Core(s, n) && ProbeAnswered(s)
  }

  // ---------------------------------------------------------------- the parts of a step

  /** Everything about joining is set but its process. */
  predicate Begun(s: State, ssid: string, n: nat) {
    && s.connecting && !s.waiting && !s.forgetting && HoldKept(s)
    && s.connectSsid == ssid && s.forgetSsid == ""
    && (s.wantConnect ==> s.pendSsid != "" && s.pendPass != "")
    && s.joinsStarted + One(s.wantConnect) < n
  }

  predicate Ready(s: State, ssid: string, n: nat) {
    s.job.Idle? && Begun(s, ssid, n)
  }

  lemma FreedIsReady(s: State, ssid: string, n: nat)
    requires Begun(s, ssid, n)
    ensures Ready(Freed(s), ssid, n) && Freed(s).knownSsid == s.knownSsid && Freed(s).knownPsk == s.knownPsk
    ensures Freed(s).needPass == s.needPass
  {
    hide HeldBack;
    if s.job.Running? {
      assert Freed(s) == s.(job := Idle);
    } else {
      assert Freed(s) == s;
    }
  }

  lemma BegunIsReady(s: State, ssid: string, n: nat)
    requires Core(s, n) && !IsJoin(s.job) && !IsForget(s.job)
    requires s.joinsStarted + One(s.wantConnect) < n
    ensures var f := Freed(BeginJoin(s, ssid));
            Ready(f, ssid, n) && f.knownSsid == s.knownSsid && f.knownPsk == s.knownPsk && f.needPass == s.needPass
  {
    hide Freed, Ready;
    FreedIsReady(BeginJoin(s, ssid), ssid, n);
  }

  lemma ReadyStarts(s: State, ssid: string, pass: string, n: nat)
    requires Ready(s, ssid, n)
    requires pass == "" ==> ssid != "" && !s.needPass && !UseSessionPsk(ssid, s.knownSsid, s.knownPsk)
    ensures Good(Started(s, Connect, ssid, pass).(stuck := false), n)
  {
  }

  lemma ReadySticks(s: State, ssid: string, n: nat)
    requires Ready(s, ssid, n)
    ensures Good(s.(stuck := true), n)
  {
  }

  lemma JoinKeeps(s: State, ssid: string, pass: string, ok: bool, n: nat)
    requires Core(s, n) && !IsJoin(s.job) && !IsForget(s.job)
    requires s.joinsStarted + One(s.wantConnect) < n
    requires pass == "" ==> ssid != "" && !s.needPass && !UseSessionPsk(ssid, s.knownSsid, s.knownPsk)
    ensures Good(JoinAs(s, ssid, pass, ok), n)
    ensures JoinAs(s, ssid, pass, ok).stuck == !ok
  {
    hide Good, Freed, BeginJoin, Ready, Started;
    var f := Freed(BeginJoin(s, ssid));
    BegunIsReady(s, ssid, n);
    if ok {
      ReadyStarts(f, ssid, pass, n);
    } else {
      ReadySticks(f, ssid, n);
    }
  }

  lemma LiveKeeps(s: State, live: string, forgotten: string, n: nat)
    requires Good(s, n) && (forgotten == s.forgetSsid || forgotten == "")
    requires live == s.live || live == "" || forgotten == ""
    ensures Good(s.(live := live, forgetSsid := forgotten), n)
  {
  }

  lemma NameKeeps(s: State, raw: string, n: nat)
    requires Good(s, n)
    ensures Good(ApplySsid(s, raw), n) && ApplySsid(s, raw).stuck == s.stuck && ApplySsid(s, raw).job == s.job
  {
    hide Good, NameIgnored, NameIn, CarriesName, Sibling;
    var name := NameIn(raw);
    if CarriesName(raw) && !NameIgnored(s, name) {
      LiveKeeps(s, if Sibling(name, s.live) then s.live else name, if name != "" then "" else s.forgetSsid, n);
    }
  }

  lemma ActiveKeeps(s: State, n: nat)
    requires Good(s, n)
    ensures Good(ApplyActive(s), n) && ApplyActive(s).stuck == s.stuck && ApplyActive(s).job == s.job
  {
    hide ApplySsid;
    var i := FirstInUse(s.aps, s.live, s.forgetSsid, 0);
    if i < |s.aps| && s.aps[i].ssid != "" {
      NameKeeps(s, s.aps[i].ssid, n);
    }
  }

  lemma {:induction false} LinkKeeps(s: State, names: seq<string>, n: nat)
    requires Good(s, n)
    ensures Good(TakeLink(s, names), n) && TakeLink(s, names).stuck == s.stuck && TakeLink(s, names).job == s.job
    decreases |names|
  {
    hide ApplySsid;
    if names != [] {
      NameKeeps(s, names[0], n);
      LinkKeeps(ApplySsid(s, names[0]), names[1..], n);
    }
  }

  lemma ClosedKeeps(s: State, n: nat)
    requires Good(s, n) && s.waiting
    ensures var r := Closed(s); Good(r, n) && r.stuck == s.stuck && r.job == s.job && r.forgetSsid == ""
  {
    hide HeldBack;
  }

  lemma ArrivedKeeps(s: State, n: nat)
    requires Good(s, n) && s.forgetSsid == ""
    ensures var r := Arrived(s); Good(r, n) && r.stuck == s.stuck && r.job == s.job
  {
  }

  lemma MissedKeeps(s: State, n: nat)
    requires Good(s, n)
    ensures var r := Missed(s); Good(r, n) && r.stuck == s.stuck && r.job == s.job
  {
    hide HeldBack;
  }

  lemma ConfirmKeeps(s: State, timedOut: bool, n: nat)
    requires Good(s, n)
    ensures Good(Confirm(s, timedOut), n) && Confirm(s, timedOut).stuck == s.stuck
    ensures Confirm(s, timedOut).job == s.job
  {
    hide Good, Closed, Arrived, Missed;
    if s.waiting {
      ClosedKeeps(s, n);
      ArrivedKeeps(Closed(s), n);
      MissedKeeps(Closed(s), n);
    }
  }

  lemma ForgottenKeeps(s: State, ssid: string, n: nat)
    requires Good(s, n)
    ensures Good(Forgotten(s, ssid), n) && !Forgotten(s, ssid).stuck
  {
  }

  lemma ForgetStartKeeps(s: State, ssid: string, n: nat)
    requires Good(s, n) && s.job.Idle? && !s.connecting
    ensures Good(Started(s.(forgetting := true), Forget, ssid, ""), n)
  {
    hide HeldBack;
  }

  lemma ForgetKeeps(s: State, ssid: string, ok: bool, n: nat)
    requires Good(s, n)
    ensures Good(ForgetNetwork(s, ssid, ok), n) && (!s.stuck ==> !ForgetNetwork(s, ssid, ok).stuck)
  {
    hide Good;
    ForgottenKeeps(s, ssid, n);
    ForgetStartKeeps(Forgotten(s, ssid), ssid, n);
  }

  lemma StartedKeeps(s: State, kind: Kind, n: nat)
    requires Good(s, n) && s.job.Idle? && !kind.Connect? && !kind.Forget?
    ensures Good(Started(s, kind, "", ""), n) && Started(s, kind, "", "").stuck == s.stuck
  {
    hide HeldBack;
  }

  lemma WishesKeep(s: State, info: bool, scan: bool, link: bool, n: nat)
    requires Good(s, n)
    ensures Good(s.(wantInfo := info, wantScan := scan, wantLink := link), n)
  {
    hide HeldBack;
  }

  lemma StartKeeps(s: State, kind: Kind, ok: bool, wish: State, n: nat)
    requires Good(s, n) && !kind.Connect? && !kind.Forget?
    requires Good(wish, n) && wish.stuck == s.stuck
    ensures Good(TryStart(s, kind, ok, wish), n) && TryStart(s, kind, ok, wish).stuck == s.stuck
  {
    hide Good, Started;
    if s.job.Idle? {
      StartedKeeps(s, kind, n);
    }
  }

  lemma ScanStartKeeps(s: State, ok: bool, n: nat)
    requires Good(s, n)
    ensures Good(StartScan(s, ok), n) && StartScan(s, ok).stuck == s.stuck
  {
    hide Good, TryStart;
    WishesKeep(s, s.wantInfo, true, s.wantLink, n);
    StartKeeps(s, Scan, ok, s.(wantScan := true), n);
  }

  lemma InfoStartKeeps(s: State, ok: bool, n: nat)
    requires Good(s, n)
    ensures Good(StartInfo(s, ok), n) && StartInfo(s, ok).stuck == s.stuck
  {
    hide Good, TryStart;
    WishesKeep(s, true, s.wantScan, s.wantLink, n);
    StartKeeps(s, Info, ok, s.(wantInfo := true), n);
  }

  lemma RadioStartKeeps(s: State, ok: bool, n: nat)
    requires Good(s, n)
    ensures Good(StartRadio(s, ok), n) && StartRadio(s, ok).stuck == s.stuck
  {
    hide Good, TryStart;
    WishesKeep(s, true, s.wantScan, s.wantLink, n);
    StartKeeps(s, Radio, ok, s.(wantInfo := true), n);
  }

  lemma LinkStartKeeps(s: State, ok: bool, n: nat)
    requires Good(s, n)
    ensures Good(StartLink(s, ok), n) && StartLink(s, ok).stuck == s.stuck
  {
    hide Good, TryStart;
    WishesKeep(s, s.wantInfo, s.wantScan, true, n);
    StartKeeps(s, Link, ok, s.(wantLink := true), n);
  }

  lemma JoinKickKeeps(s: State, ok: bool, n: nat)
    requires Good(s, n) && s.job.Idle? && s.wantConnect
    ensures var r := Join(s.(wantConnect := false), s.pendSsid, s.pendPass, ok); Good(r, n) && r.stuck == !ok
  {
    hide HeldBack, JoinAs;
    JoinKeeps(s.(wantConnect := false), s.pendSsid, s.pendPass, ok, n);
  }

  lemma KickKeeps(s: State, ok: bool, n: nat)
    requires Good(s, n)
    ensures Good(Kick(s, ok), n) && (!s.stuck && ok ==> !Kick(s, ok).stuck)
  {
    hide Good, Join, StartScan, StartLink, StartInfo;
    if s.job.Idle? {
      if s.wantConnect {
        JoinKickKeeps(s, ok, n);
      } else if s.wantScan {
        WishesKeep(s, s.wantInfo, false, s.wantLink, n);
        ScanStartKeeps(s.(wantScan := false), ok, n);
      } else if s.wantLink {
        WishesKeep(s, s.wantInfo, s.wantScan, false, n);
        LinkStartKeeps(s.(wantLink := false), ok, n);
      } else {
        WishesKeep(s, false, s.wantScan, s.wantLink, n);
        InfoStartKeeps(s.(wantInfo := false), ok, n);
      }
    }
  }

  lemma RoomGrows(s: State, n: nat)
    requires Good(s, n)
    ensures Good(s, n + 1)
  {
    hide HeldBack;
  }

  lemma TappedKeeps(s: State, used: bool, n: nat)
    requires Good(s, n)
    ensures Core(UsingPass(s, used), n)
    ensures var r := UsingPass(s, used);
            r.job == s.job && r.knownSsid == s.knownSsid && r.knownPsk == s.knownPsk && r.needPass == used
            && r.joinsStarted + One(r.wantConnect) <= n
  {
    hide HeldBack;
  }

  lemma TapKeeps(s: State, enterprise: bool, ok: bool, n: nat)
    requires Good(s, n)
    ensures Good(JoinPicked(s, enterprise, ok), n + 1)
    ensures !s.stuck && ok ==> !JoinPicked(s, enterprise, ok).stuck
  {
    hide JoinAs, IsCurrent, UsingPass, HeldBack;
    var usesPsk := UseSessionPsk(s.selectedSsid, s.knownSsid, s.knownPsk);
    RoomGrows(s, n);
    TappedKeeps(s, usesPsk, n);
    if s.selectedSsid != "" && !s.connecting && !s.forgetting {
      JoinKeeps(UsingPass(s, usesPsk), s.selectedSsid, if usesPsk then s.knownPsk else "", ok, n + 1);
    }
  }

  lemma RememberedKeeps(s: State, ssid: string, password: string, n: nat)
    requires Good(s, n)
    ensures Core(Remembered(s, ssid, password), n)
    ensures var r := Remembered(s, ssid, password);
            r.job == s.job && r.connecting == s.connecting && r.stuck == s.stuck && r.connectSsid == s.connectSsid
            && r.selectedSsid == s.selectedSsid && r.joinsStarted + One(r.wantConnect) <= n
  {
    hide HeldBack;
  }

  lemma QueueKeeps(s: State, ssid: string, password: string, n: nat)
    requires Core(s, n) && ssid == PassSsid(s.connectSsid, s.selectedSsid) != "" && password != ""
    requires s.joinsStarted <= n
    ensures Good(Queued(s, ssid, password), n + 1) && Queued(s, ssid, password).stuck == s.stuck
  {
    hide HeldBack;
  }

  lemma SubmitKeeps(s: State, password: string, enterprise: bool, ok: bool, n: nat)
    requires Good(s, n)
    ensures Good(SubmitPass(s, password, enterprise, ok), n + 1)
    ensures !s.stuck && ok ==> !SubmitPass(s, password, enterprise, ok).stuck
  {
    hide JoinAs, Remembered, Queued;
    var ssid := PassSsid(s.connectSsid, s.selectedSsid);
    RoomGrows(s, n);
    RememberedKeeps(s, ssid, password, n);
    if ssid != "" && !s.forgetting && |password| >= MIN_PASSWORD {
      if s.connecting {
        QueueKeeps(Remembered(s, ssid, password), ssid, password, n);
      } else {
        var name := if s.connectSsid != "" then SelfCopied(s.connectSsid) else s.selectedSsid;
        JoinKeeps(Remembered(s, ssid, password), name, password, ok, n + 1);
      }
    }
  }

  /** The remembered password is never tried by itself: an empty probe that could use it has it
      queued, and a join that had a password is not asked for one. */
  lemma RetryNeverHappens(s: State, rc: int, out: string, n: nat)
    requires Good(s, n) && IsJoin(s.job) && Answers(s.job, rc, out)
    ensures !OnConnectJob(Report(s.(job := Idle), rc, out)).RetryPsk?
  {
    hide HeldBack, NeedPw, WrongPw, JobOk;
  }

  /** The window opens only for a join that was given a name. */
  lemma SuccessIsNamed(s: State, rc: int, out: string, n: nat)
    requires Good(s, n) && IsJoin(s.job) && Answers(s.job, rc, out)
    requires OnConnectJob(Report(s.(job := Idle), rc, out)).Success?
    ensures s.connectSsid != ""
  {
    hide HeldBack, NeedPw, WrongPw, JobOk;
  }

  /** A password is queued for the join that ended. */
  predicate AnswerQueued(s: State) {
    s.wantConnect && SsidEq(s.pendSsid, s.connectSsid)
  }

  /** What the end of a join leads to, by its evidence alone. */
  function Verdict(s: State, rc: int, out: string): Action {
    var asked := NeedPw(rc, out) || WrongPw(rc, out);
    if JobOk(rc, out) || (asked && AlreadyOn(s.connected, s.live, s.connectSsid)) then Success
    else if asked && AnswerQueued(s) then WaitPending
    else if WrongPw(rc, out) then WrongPass
    else if NeedPw(rc, out) && !s.sheet.NoSheet? then OpenPass
    else Fail
  }

  /** Whether a password was used or is remembered makes no difference to how a join ends: a network
      is blamed for its password only if the script said so, and a password is asked for only if the
      script asked, none was given, and none is queued. */
  lemma OnlyEvidenceDecides(s: State, rc: int, out: string, n: nat)
    requires Good(s, n) && IsJoin(s.job) && Answers(s.job, rc, out)
    ensures OnConnectJob(Report(s.(job := Idle), rc, out)) == Verdict(s, rc, out)
    ensures OnConnectJob(Report(s.(job := Idle), rc, out)).OpenPass? ==> !PasswordKnown(s)
  {
    hide HeldBack, NeedPw, WrongPw, JobOk;
  }

  lemma JoinOverKeeps(s: State, n: nat)
    requires Good(s, n) && IsJoin(s.job)
    ensures var r := JoinOver(s.(job := Idle));
            Good(r, n) && !r.stuck && !r.connecting && !r.forgetting && r.job.Idle? && r.forgetSsid == ""
            && r.connectSsid == s.connectSsid == s.job.name
  {
    hide HeldBack;
  }

  lemma PassSheetKeeps(s: State, n: nat)
    requires Good(s, n)
    ensures Good(ShowPass(s), n) && ShowPass(s).stuck == s.stuck
  {
    hide HeldBack;
  }

  lemma FailureSheetKeeps(s: State, n: nat)
    requires Good(s, n)
    ensures Good(ShowFailure(s), n) && ShowFailure(s).stuck == s.stuck
  {
    hide HeldBack;
  }

  lemma ForgetPskKeeps(s: State, ssid: string, n: nat)
    requires Good(s, n)
    ensures Good(ForgetPsk(s, ssid), n) && ForgetPsk(s, ssid).stuck == s.stuck
  {
    hide HeldBack, SsidEq;
  }

  lemma WindowKeeps(s: State, n: nat)
    requires Good(s, n) && !s.connecting && !s.forgetting && s.job.Idle? && s.forgetSsid == "" && s.connectSsid != ""
    ensures Good(OpenWindow(s), n) && !OpenWindow(s).stuck
  {
    hide HeldBack;
  }

  /** The end of a join: the window opens, the remembered password is tried, or the join is over. */
  lemma JoinEndKeeps(s: State, rc: int, out: string, ok: bool, n: nat)
    requires Good(s, n) && IsJoin(s.job) && Answers(s.job, rc, out)
    ensures Good(TakeJoin(s.(job := Idle), rc, out, ok), n)
    ensures ok ==> !TakeJoin(s.(job := Idle), rc, out, ok).stuck
  {
    hide OnConnectJob, NeedPw, Join, Confirm, JoinOver, OpenWindow, DropEmptyProbe, ShowPass, ShowFailure, ForgetPsk;
    hide Good;
    var r := s.(job := Idle);
    var over := JoinOver(r);
    JoinOverKeeps(s, n);
    RetryNeverHappens(s, rc, out, n);
    match OnConnectJob(Report(r, rc, out)) {
      case Success =>
        SuccessIsNamed(s, rc, out, n);
        WindowKeeps(over, n);
        ConfirmKeeps(OpenWindow(over), false, n);
      case RetryPsk =>
        assert false;
      case WrongPass =>
        ForgetPskKeeps(over, s.connectSsid, n);
        PassSheetKeeps(ForgetPsk(over, s.connectSsid), n);
      case OpenPass =>
        PassSheetKeeps(over, n);
      case WaitPending =>
      case Fail =>
        FailureSheetKeeps(over, n);
    }
  }

  lemma UnlistedKeeps(s: State, n: nat)
    requires Good(s, n) && IsForget(s.job)
    ensures Good(Unlisted(s.(job := Idle)), n) && !Unlisted(s.(job := Idle)).stuck
  {
  }

  lemma LiveDroppedKeeps(s: State, n: nat)
    requires Good(s, n)
    ensures Good(LiveDropped(s), n) && LiveDropped(s).stuck == s.stuck
  {
    hide DropsLive;
  }

  lemma ListedKeeps(s: State, n: nat)
    requires Good(s, n)
    ensures Good(Listed(s), n) && Listed(s).stuck == s.stuck
  {
    hide HeldBack;
  }

  lemma FailedForgetKeeps(s: State, n: nat)
    requires Good(s, n) && IsForget(s.job)
    ensures Good(s.(job := Idle, forgetting := false, sheet := Detail), n) && !s.stuck
  {
    hide HeldBack;
  }

  lemma ForgetEndKeeps(s: State, failed: bool, n: nat)
    requires Good(s, n) && IsForget(s.job)
    ensures Good(TakeForget(s.(job := Idle), failed), n) && !TakeForget(s.(job := Idle), failed).stuck
  {
    hide Good, Unlisted, LiveDropped, ForgetPsk, Listed;
    if failed {
      FailedForgetKeeps(s, n);
    } else {
      var u := Unlisted(s.(job := Idle));
      UnlistedKeeps(s, n);
      LiveDroppedKeeps(u, n);
      ForgetPskKeeps(LiveDropped(u), s.selectedSsid, n);
      ListedKeeps(ForgetPsk(LiveDropped(u), s.selectedSsid), n);
    }
  }

  lemma ReportedKeeps(s: State, up: bool, isBusy: bool, n: nat)
    requires Good(s, n)
    ensures Good(Reported(s, up, isBusy), n) && Reported(s, up, isBusy).stuck == s.stuck
  {
    hide HeldBack;
  }

  lemma DisownedKeeps(s: State, n: nat)
    requires Good(s, n)
    ensures Good(Disowned(s), n) && Disowned(s).stuck == s.stuck
  {
  }

  lemma ReleasedKeeps(s: State, n: nat)
    requires Good(s, n)
    ensures Good(Released(s), n) && Released(s).stuck == s.stuck
  {
  }

  lemma InfoKeeps(s: State, sawWifi: bool, up: bool, isBusy: bool, n: nat)
    requires Good(s, n)
    ensures Good(TakeInfo(s, sawWifi, up, isBusy), n) && TakeInfo(s, sawWifi, up, isBusy).stuck == s.stuck
  {
    hide Good, ForgetHolds, Reported, Disowned, Released;
    ReportedKeeps(s, up, isBusy, n);
    DisownedKeeps(Reported(s, up, isBusy), n);
    ReleasedKeeps(Reported(s, up, isBusy), n);
  }

  lemma LinkWantedKeeps(s: State, n: nat)
    requires Good(s, n)
    ensures Good(LinkWanted(s), n) && LinkWanted(s).stuck == s.stuck
  {
    hide Good;
    WishesKeep(s, s.wantInfo, s.wantScan, s.wantLink || s.connected || s.busy || s.waiting, n);
  }

  lemma InfoEndKeeps(s: State, timedOut: bool, n: nat)
    requires Good(s, n)
    ensures Good(EndInfo(s, timedOut), n) && EndInfo(s, timedOut).stuck == s.stuck
  {
    hide Good, Confirm, LinkWanted;
    LinkWantedKeeps(s, n);
    ConfirmKeeps(LinkWanted(s), timedOut, n);
  }

  lemma LinkEndKeeps(s: State, n: nat)
    requires Good(s, n)
    ensures Good(EndLink(s), n) && EndLink(s).stuck == s.stuck
  {
    hide Good;
    WishesKeep(s, s.wantInfo || s.waiting, s.wantScan, s.wantLink, n);
  }

  lemma HeldKeeps(s: State, found: seq<Ap>, n: nat)
    requires Good(s, n)
    ensures Good(s.(aps := Held(found, s.forgetSsid)), n)
  {
  }

  lemma ScanKeeps(s: State, found: seq<Ap>, n: nat)
    requires Good(s, n)
    ensures Good(TakeScan(s, found), n) && TakeScan(s, found).stuck == s.stuck
  {
    hide ApplyActive, Good, Held;
    HeldKeeps(s, found, n);
    ActiveKeeps(s.(aps := Held(found, s.forgetSsid)), n);
  }

  /** A process other than a join or a forget leaves its slot free and nothing else changed. */
  lemma SlotFreed(s: State, n: nat)
    requires Good(s, n) && s.job.Running? && !IsJoin(s.job) && !IsForget(s.job)
    ensures Good(s.(job := Idle), n)
  {
    hide HeldBack;
  }

  lemma ExitKeeps(s: State, x: Exit, timedOut: bool, ok: bool, n: nat)
    requires Good(s, n) && s.job.Running? && s.job.kind == KindOf(x)
    requires x.ConnectDone? ==> Answers(s.job, x.rc, x.out)
    ensures Good(TakeExit(s.(job := Idle), x, timedOut, ok), n)
    ensures !s.stuck && ok ==> !TakeExit(s.(job := Idle), x, timedOut, ok).stuck
  {
    hide Good, TakeInfo, TakeScan, TakeLink, TakeJoin, TakeForget, Confirm, EndInfo, EndLink;
    var r := s.(job := Idle);
    match x {
      case ConnectDone(rc, out) =>
        JoinEndKeeps(s, rc, out, ok, n);
      case ForgetDone(failed) =>
        ForgetEndKeeps(s, failed, n);
      case RadioDone =>
        SlotFreed(s, n);
        WishesKeep(r, true, true, r.wantLink, n);
      case InfoDone(saw, up, isBusy) =>
        SlotFreed(s, n);
        InfoKeeps(r, saw, up, isBusy, n);
        InfoEndKeeps(TakeInfo(r, saw, up, isBusy), timedOut, n);
      case ScanDone(found) =>
        SlotFreed(s, n);
        ScanKeeps(r, found, n);
        ConfirmKeeps(TakeScan(r, found), timedOut, n);
      case LinkDone(names) =>
        SlotFreed(s, n);
        LinkKeeps(r, names, n);
        ConfirmKeeps(TakeLink(r, names), timedOut, n);
        LinkEndKeeps(Confirm(TakeLink(r, names), timedOut), n);
    }
  }

  lemma ViewKeeps(s: State, ssid: string, sheet: Sheet, off: bool, n: nat)
    requires Good(s, n)
    ensures Good(s.(selectedSsid := ssid, sheet := sheet, screenOff := off), n)
  {
    hide HeldBack;
  }

  /** The joins an event would start do start. */
  predicate Starts(e: Event) {
    match e
    case JoinTapped(_, ok) => ok
    case PasswordSubmitted(_, _, ok) => ok
    case Kicked(ok) => ok
    case JobEnded(_, _, ok, okNext) => ok && okNext
    case _ => true
  }

  /** What an event adds to the joins that may be started: a join tap or a submitted password. */
  predicate Asks(e: Event) {
    e.JoinTapped? || e.PasswordSubmitted?
  }

  lemma AskStepKeeps(s: State, e: Event, n: nat)
    requires Good(s, n) && Asks(e)
    ensures Good(Step(s, e), n + 1) && (!s.stuck && Starts(e) ==> !Step(s, e).stuck)
  {
    hide Good, JoinPicked, SubmitPass;
    if e.JoinTapped? {
      TapKeeps(s, e.enterprise, e.ok, n);
    } else {
      SubmitKeeps(s, e.password, e.enterprise, e.ok, n);
    }
  }

  lemma WorkStepKeeps(s: State, e: Event, n: nat)
    requires Good(s, n) && (e.ScanRequested? || e.InfoRequested? || e.RadioRequested? || e.Kicked?)
    ensures Good(Step(s, e), n) && (!s.stuck && Starts(e) ==> !Step(s, e).stuck)
  {
    hide Good, StartScan, StartInfo, StartRadio, Kick;
    match e {
      case ScanRequested(ok) => ScanStartKeeps(s, ok, n);
      case InfoRequested(ok) => InfoStartKeeps(s, ok, n);
      case RadioRequested(ok) => RadioStartKeeps(s, ok, n);
      case Kicked(ok) => KickKeeps(s, ok, n);
    }
  }

  lemma ViewStepKeeps(s: State, e: Event, n: nat)
    requires Good(s, n) && (e.RowSelected? || e.SheetChanged? || e.ScreenChanged?)
    ensures Good(Step(s, e), n) && Step(s, e).stuck == s.stuck
  {
    hide Good;
    match e {
      case RowSelected(row) =>
        if row < |s.aps| {
          ViewKeeps(s, s.aps[row].ssid, s.sheet, s.screenOff, n);
        }
      case SheetChanged(sheet) => ViewKeeps(s, s.selectedSsid, sheet, s.screenOff, n);
      case ScreenChanged(off) => ViewKeeps(s, s.selectedSsid, s.sheet, off, n);
    }
  }

  lemma OtherStepKeeps(s: State, e: Event, n: nat)
    requires Good(s, n) && (e.ForgetTapped? || e.ConfirmChecked? || e.SignalSampled?)
    ensures Good(Step(s, e), n) && (!s.stuck ==> !Step(s, e).stuck)
  {
    hide Good, ForgetNetwork, Confirm, ApplyActive;
    match e {
      case ForgetTapped(ok) => ForgetKeeps(s, s.selectedSsid, ok, n);
      case ConfirmChecked(timedOut) => ConfirmKeeps(s, timedOut, n);
      case SignalSampled => ActiveKeeps(s, n);
    }
  }

  lemma EndStepKeeps(s: State, e: Event, n: nat)
    requires Good(s, n) && Possible(s, e) && e.JobEnded?
    ensures Good(Step(s, e), n) && (!s.stuck && Starts(e) ==> !Step(s, e).stuck)
  {
    hide Good, TakeExit, Kick, NeedPw;
    if s.job.Running? && s.job.kind == KindOf(e.report) {
      ExitKeeps(s, e.report, e.timedOut, e.ok, n);
      KickKeeps(TakeExit(s.(job := Idle), e.report, e.timedOut, e.ok), e.okNext, n);
    }
  }

  /** Every handler keeps every property; only a join that does not start can leave the HUD stuck. */
  lemma StepKeeps(s: State, e: Event, n: nat)
    requires Good(s, n) && Possible(s, e)
    ensures Good(Step(s, e), n + One(Asks(e)))
    ensures !s.stuck && Starts(e) ==> !Step(s, e).stuck
  {
    hide Good, Step, Starts, Possible;
    match e {
      case JoinTapped(_, _) => AskStepKeeps(s, e, n);
      case PasswordSubmitted(_, _, _) => AskStepKeeps(s, e, n);
      case ForgetTapped(_) => OtherStepKeeps(s, e, n);
      case RowSelected(_) => ViewStepKeeps(s, e, n);
      case ScanRequested(_) => WorkStepKeeps(s, e, n);
      case InfoRequested(_) => WorkStepKeeps(s, e, n);
      case RadioRequested(_) => WorkStepKeeps(s, e, n);
      case Kicked(_) => WorkStepKeeps(s, e, n);
      case ConfirmChecked(_) => OtherStepKeeps(s, e, n);
      case SignalSampled => OtherStepKeeps(s, e, n);
      case SheetChanged(_) => ViewStepKeeps(s, e, n);
      case ScreenChanged(_) => ViewStepKeeps(s, e, n);
      case JobEnded(_, _, _, _) => EndStepKeeps(s, e, n);
    }
  }

  // ---------------------------------------------------------------- runs

  predicate AllStart(events: seq<Event>) {
    forall k :: 0 <= k < |events| ==> Starts(events[k])
  }

  function Asked(events: seq<Event>): nat {
    if events == [] then 0 else Asked(events[..|events| - 1]) + One(Asks(events[|events| - 1]))
  }

  lemma {:induction false} RunKeeps(s: State, events: seq<Event>, n: nat)
    requires Good(s, n) && PossibleRun(s, events)
    ensures Good(Run(s, events), n + Asked(events))
    ensures !s.stuck && AllStart(events) ==> !Run(s, events).stuck
  {
    hide Good, Possible, Step, Starts, Asks;
    if events != [] {
      var k := |events| - 1;
      RunKeeps(s, events[..k], n);
      StepKeeps(Run(s, events[..k]), events[k], n + Asked(events[..k]));
    }
  }

  lemma RunFromStart(events: seq<Event>)
    requires PossibleRun(START, events)
    ensures Good(Run(START, events), Asked(events))
    ensures AllStart(events) ==> !Run(START, events).stuck
  {
    hide PossibleRun, Run, Asked, AllStart;
    RunKeeps(START, events, 0);
  }

  lemma ModeOf(s: State, n: nat)
    requires Good(s, n)
    ensures (s.forgetting <==> IsForget(s.job)) && !(s.connecting && s.forgetting)
    ensures (s.connecting <==> (IsJoin(s.job) != s.waiting)) && !(IsJoin(s.job) && s.waiting) <==> !s.stuck
    ensures s.joinsStarted <= n
    ensures IsJoin(s.job) ==> s.job.name == s.connectSsid && (s.job.name == "" ==> s.job.pass != "")
    ensures s.waiting ==> s.connectSsid != ""
  {
    hide HeldBack;
  }

  lemma HeldBackFromSight(s: State, n: nat)
    requires Good(s, n) && s.forgetSsid != ""
    ensures s.live != s.forgetSsid && !IsCurrent(s, s.forgetSsid)
    ensures forall i :: 0 <= i < |s.aps| && s.aps[i].ssid == s.forgetSsid ==> !s.aps[i].active
  {
  }

  /** In every reachable state connecting means exactly one of a join process and the confirm window,
      unless a join failed to start and is the last thing that happened to joining; forgetting means
      a forget process; never both. The process joins the network shown; only a join with a password
      is ever of no network, and the window is never for none. */
  lemma ModesExclusive(events: seq<Event>)
    requires PossibleRun(START, events)
    ensures var s := Run(START, events);
            && (s.forgetting <==> IsForget(s.job)) && !(s.connecting && s.forgetting)
            && ((s.connecting <==> (IsJoin(s.job) != s.waiting)) && !(IsJoin(s.job) && s.waiting) <==> !s.stuck)
            && (IsJoin(s.job) ==> s.job.name == s.connectSsid && (s.job.name == "" ==> s.job.pass != ""))
            && (s.waiting ==> s.connectSsid != "")
    ensures AllStart(events) ==> !Run(START, events).stuck
  {
    hide Good, PossibleRun, Run, Asked, AllStart, IsCurrent;
    RunFromStart(events);
    ModeOf(Run(START, events), Asked(events));
  }

  /** In every reachable state a forgotten network that is still held back is not live, not marked in
      use, and not current. */
  lemma ForgottenStaysAway(events: seq<Event>)
    requires PossibleRun(START, events) && Run(START, events).forgetSsid != ""
    ensures var s := Run(START, events);
            && s.live != s.forgetSsid && !IsCurrent(s, s.forgetSsid)
            && forall i :: 0 <= i < |s.aps| && s.aps[i].ssid == s.forgetSsid ==> !s.aps[i].active
  {
    hide Good, PossibleRun, Run, Asked, AllStart, IsCurrent;
    RunFromStart(events);
    HeldBackFromSight(Run(START, events), Asked(events));
  }

  /** Every join process is owed to a join tap or a submitted password of its own: no run starts more
      of them than it has taps and submits. */
  lemma JoinsAreAskedFor(events: seq<Event>)
    requires PossibleRun(START, events)
    ensures Run(START, events).joinsStarted <= Asked(events)
  {
    hide Good, PossibleRun, Run, Asked, AllStart, IsCurrent;
    RunFromStart(events);
    ModeOf(Run(START, events), Asked(events));
  }

  /** In every reachable state, a join that ends never leads to a retry with the remembered password. */
  lemma NoRetryInAnyRun(events: seq<Event>, rc: int, out: string)
    requires PossibleRun(START, events) && IsJoin(Run(START, events).job)
    requires Answers(Run(START, events).job, rc, out)
    ensures !OnConnectJob(Report(Run(START, events).(job := Idle), rc, out)).RetryPsk?
  {
    hide Good, PossibleRun, Run, Asked, OnConnectJob, NeedPw;
    RunFromStart(events);
    RetryNeverHappens(Run(START, events), rc, out, Asked(events));
  }

  // ---------------------------------------------------------------- the way out of being stuck

  /** Stuck, and nothing queued that could end it. */
  predicate Caught(s: State) {
    s.stuck && !s.wantConnect
  }

  /** A password is taken if it is long enough and there is a network for it. */
  predicate Accepts(s: State, password: string, enterprise: bool) {
    PassSsid(s.connectSsid, s.selectedSsid) != "" && !s.forgetting && !enterprise && |password| >= 8
  }

  /** Exactly two things end it: a password that is accepted, and forgetting a selected network. */
  predicate Frees(s: State, e: Event) {
    || (e.PasswordSubmitted? && Accepts(s, e.password, e.enterprise))
    || (e.ForgetTapped? && s.selectedSsid != "")
  }

  /** What the handling of a report leaves alone. */
  predicate Leaves(s: State, r: State) {
    r.stuck == s.stuck && r.wantConnect == s.wantConnect && r.joinsStarted == s.joinsStarted
  }

  lemma LiveLeaves(s: State, live: string, forgotten: string)
    ensures Leaves(s, s.(forgetSsid := forgotten, live := live))
  {
  }

  lemma NameLeaves(s: State, raw: string)
    ensures Leaves(s, ApplySsid(s, raw))
  {
    hide NameIgnored, NameIn, CarriesName, Sibling, Leaves;
    var name := NameIn(raw);
    if CarriesName(raw) && !NameIgnored(s, name) {
      LiveLeaves(s, if Sibling(name, s.live) then s.live else name, if name != "" then "" else s.forgetSsid);
    } else {
      assert ApplySsid(s, raw) == s;
      SameLeaves(s);
    }
  }

  lemma SameLeaves(s: State)
    ensures Leaves(s, s)
  {
  }

  lemma ActiveLeaves(s: State)
    ensures Leaves(s, ApplyActive(s))
  {
    hide ApplySsid, FirstInUse;
    var i := FirstInUse(s.aps, s.live, s.forgetSsid, 0);
    if i < |s.aps| {
      NameLeaves(s, s.aps[i].ssid);
    }
  }

  lemma {:induction false} LinkLeaves(s: State, names: seq<string>)
    ensures Leaves(s, TakeLink(s, names))
    decreases |names|
  {
    hide ApplySsid;
    if names != [] {
      NameLeaves(s, names[0]);
      LinkLeaves(ApplySsid(s, names[0]), names[1..]);
    }
  }

  lemma ConfirmLeaves(s: State, timedOut: bool)
    ensures Leaves(s, Confirm(s, timedOut))
  {
    hide AlreadyOn, Closed, Arrived, Missed;
    ClosedLeaves(s);
    ArrivedLeaves(Closed(s));
  }

  lemma ClosedLeaves(s: State)
    ensures Leaves(s, Closed(s))
  {
  }

  lemma ArrivedLeaves(s: State)
    ensures Leaves(s, Arrived(s)) && Leaves(s, Missed(s))
  {
    hide MarkActive;
  }

  lemma ScanLeaves(s: State, found: seq<Ap>)
    ensures Leaves(s, TakeScan(s, found))
  {
    hide ApplyActive, Held;
    ActiveLeaves(s.(aps := Held(found, s.forgetSsid)));
  }

  lemma ReportedLeaves(s: State, up: bool, isBusy: bool)
    ensures Leaves(s, Reported(s, up, isBusy))
  {
  }

  lemma DisownedLeaves(s: State)
    ensures Leaves(s, Disowned(s)) && Leaves(s, Released(s))
  {
  }

  lemma InfoLeaves(s: State, saw: bool, up: bool, isBusy: bool)
    ensures Leaves(s, TakeInfo(s, saw, up, isBusy))
  {
    hide ForgetHolds, Reported, Disowned, Released;
    ReportedLeaves(s, up, isBusy);
    DisownedLeaves(Reported(s, up, isBusy));
  }

  lemma InfoEndLeaves(s: State, timedOut: bool)
    ensures Leaves(s, EndInfo(s, timedOut))
  {
    hide Confirm;
    ConfirmLeaves(s.(wantLink := s.wantLink || s.connected || s.busy || s.waiting), timedOut);
  }

  lemma UnlistedLeaves(s: State)
    ensures Leaves(s, Unlisted(s)) && Leaves(s, Listed(s))
  {
    hide MarkInactive, Gone;
  }

  lemma LiveDroppedLeaves(s: State)
    ensures Leaves(s, LiveDropped(s))
  {
    hide DropsLive;
    if DropsLive(s) {
      assert LiveDropped(s) == s.(connected := false, live := "");
    } else {
      assert LiveDropped(s) == s;
    }
  }

  lemma ForgetPskLeaves(s: State, ssid: string)
    ensures Leaves(s, ForgetPsk(s, ssid))
  {
    hide SsidEq;
    if SsidEq(s.knownSsid, ssid) {
      assert ForgetPsk(s, ssid) == s.(knownSsid := "", knownPsk := "");
    } else {
      assert ForgetPsk(s, ssid) == s;
    }
  }

  lemma ForgetEndLeaves(s: State, failed: bool)
    ensures Leaves(s, TakeForget(s, failed))
  {
    hide Unlisted, LiveDropped, ForgetPsk, Listed;
    if !failed {
      var u := Unlisted(s);
      UnlistedLeaves(s);
      LiveDroppedLeaves(u);
      ForgetPskLeaves(LiveDropped(u), s.selectedSsid);
      UnlistedLeaves(ForgetPsk(LiveDropped(u), s.selectedSsid));
    }
  }

  lemma ExitLeaves(s: State, x: Exit, timedOut: bool, ok: bool)
    requires !x.ConnectDone?
    ensures Leaves(s, TakeExit(s, x, timedOut, ok))
  {
    hide TakeInfo, TakeScan, TakeLink, TakeForget, EndInfo, Confirm;
    match x {
      case RadioDone =>
      case InfoDone(saw, up, isBusy) =>
        InfoLeaves(s, saw, up, isBusy);
        InfoEndLeaves(TakeInfo(s, saw, up, isBusy), timedOut);
      case ScanDone(found) =>
        ScanLeaves(s, found);
        ConfirmLeaves(TakeScan(s, found), timedOut);
      case LinkDone(names) =>
        LinkLeaves(s, names);
        ConfirmLeaves(TakeLink(s, names), timedOut);
      case ForgetDone(failed) =>
        ForgetEndLeaves(s, failed);
    }
  }

  lemma StartLeaves(s: State, kind: Kind, ok: bool, wish: State)
    requires Caught(s) && Caught(wish)
    ensures Caught(TryStart(s, kind, ok, wish))
  {
  }

  lemma KickLeaves(s: State, ok: bool)
    requires Caught(s)
    ensures Caught(Kick(s, ok))
  {
    hide TryStart, Join;
    StartLeaves(s.(wantScan := false), Scan, ok, s.(wantScan := true));
    StartLeaves(s.(wantLink := false), Link, ok, s.(wantLink := true));
    StartLeaves(s.(wantInfo := false), Info, ok, s.(wantInfo := true));
  }

  lemma EndLeaves(s: State, x: Exit, timedOut: bool, ok: bool, okNext: bool, n: nat)
    requires Good(s, n) && Caught(s)
    ensures Caught(PollJob(s, x, timedOut, ok, okNext))
  {
    hide TakeExit, Kick, HeldBack;
    if s.job.Running? && s.job.kind == KindOf(x) {
      ExitLeaves(s.(job := Idle), x, timedOut, ok);
      KickLeaves(TakeExit(s.(job := Idle), x, timedOut, ok), okNext);
    }
  }

  lemma AskLeaves(s: State, e: Event, n: nat)
    requires Good(s, n) && Caught(s) && (e.JoinTapped? || e.PasswordSubmitted? || e.ForgetTapped?)
    ensures Caught(Step(s, e)) <==> !Frees(s, e)
  {
    hide HeldBack, Join, IsCurrent, UseSessionPsk, MarkInactive, SsidEq;
  }

  lemma WishLeaves(s: State, e: Event)
    requires Caught(s) && (e.ScanRequested? || e.InfoRequested? || e.RadioRequested?)
    ensures Caught(Step(s, e))
  {
    hide TryStart;
    StartLeaves(s, Scan, e.ok, s.(wantScan := true));
    StartLeaves(s, Info, e.ok, s.(wantInfo := true));
    StartLeaves(s, Radio, e.ok, s.(wantInfo := true));
  }

  /** A stuck HUD with nothing queued stays so through every event but the two that free it. */
  lemma OnlyThoseFree(s: State, e: Event, n: nat)
    requires Good(s, n) && Caught(s)
    ensures Caught(Step(s, e)) <==> !Frees(s, e)
  {
    hide HeldBack, JoinPicked, SubmitPass, ForgetNetwork, ApplyActive, PollJob, Kick, Confirm, TryStart;
    match e {
      case JoinTapped(_, _) => AskLeaves(s, e, n);
      case PasswordSubmitted(_, _, _) => AskLeaves(s, e, n);
      case ForgetTapped(_) => AskLeaves(s, e, n);
      case RowSelected(_) =>
      case ScanRequested(_) => WishLeaves(s, e);
      case InfoRequested(_) => WishLeaves(s, e);
      case RadioRequested(_) => WishLeaves(s, e);
      case Kicked(ok) => KickLeaves(s, ok);
      case ConfirmChecked(timedOut) => ConfirmLeaves(s, timedOut);
      case SignalSampled => ActiveLeaves(s);
      case SheetChanged(_) =>
      case ScreenChanged(_) =>
      case JobEnded(x, timedOut, ok, okNext) => EndLeaves(s, x, timedOut, ok, okNext, n);
    }
  }

  /** With a password queued, the next kick gets it out exactly if the process starts this time. */
  lemma QueuedPasswordFrees(s: State, ok: bool, n: nat)
    requires Good(s, n) && s.stuck && s.wantConnect && s.job.Idle?
    ensures Kick(s, ok).stuck == !ok && !Kick(s, ok).wantConnect
  {
    hide HeldBack;
  }

  predicate NeverFreed(s: State, events: seq<Event>) {
    forall k :: 0 <= k < |events| ==> !Frees(Run(s, events[..k]), events[k])
  }

  /** So without them it is stuck for good. */
  lemma {:induction false} StuckForGood(s: State, events: seq<Event>, n: nat)
    requires Good(s, n) && Caught(s) && PossibleRun(s, events) && NeverFreed(s, events)
    ensures Caught(Run(s, events))
  {
    hide Good, Possible, Step, Frees;
    if events != [] {
      var k := |events| - 1;
      forall j | 0 <= j < k ensures !Frees(Run(s, events[..k][..j]), events[..k][j]) {
        assert events[..k][..j] == events[..j];
        assert !Frees(Run(s, events[..j]), events[j]);
      }
      StuckForGood(s, events[..k], n);
      RunKeeps(s, events[..k], n);
      assert !Frees(Run(s, events[..k]), events[k]);
      OnlyThoseFree(Run(s, events[..k]), events[k], n + Asked(events[..k]));
    }
  }

  /** One join that does not start is enough. */
  lemma FailedStartSticks(ssid: string)
    requires ssid != ""
    ensures var s := START.(selectedSsid := ssid);
            Good(s, 0) && Join(s, ssid, "", false).stuck && JoinPicked(s, false, false).connecting
            && JoinPicked(s, false, false).job.Idle? && !JoinPicked(s, false, false).waiting
  {
  }

  // ---------------------------------------------------------------- what releases the hold

  /** A raw name stands for a network other than the forgotten one. */
  predicate NamesOther(s: State, raw: string) {
    CarriesName(raw) && NameIn(raw) != "" && NameIn(raw) != s.forgetSsid
  }

  predicate NamedInUse(s: State, aps: seq<Ap>) {
    exists i :: 0 <= i < |aps| && aps[i].ssid != s.forgetSsid && (aps[i].active || aps[i].ssid == s.live)
  }

  /** What may release the hold without a join or another forget: the radio reporting that it is
      down, or a report that names another network. */
  predicate Releasing(s: State, e: Event) {
    || (e.SignalSampled? && NamedInUse(s, s.aps))
    || (e.JobEnded? &&
        match e.report
        case InfoDone(saw, up, isBusy) => saw && !up && !isBusy
        case ScanDone(found) => NamedInUse(s, found)
        case LinkDone(names) => exists k :: 0 <= k < |names| && NamesOther(s, names[k])
        case _ => false)
  }

  lemma NameReleases(s: State, raw: string)
    ensures ApplySsid(s, raw).forgetSsid != s.forgetSsid ==> NamesOther(s, raw)
  {
    hide CarriesName, NameIn, Sibling;
  }

  lemma {:induction false} LinkReleases(s: State, names: seq<string>)
    requires TakeLink(s, names).forgetSsid != s.forgetSsid
    ensures exists k :: 0 <= k < |names| && NamesOther(s, names[k])
    decreases |names|
  {
    hide CarriesName, NameIn, ApplySsid;
    if names != [] {
      NameReleases(s, names[0]);
      if ApplySsid(s, names[0]).forgetSsid == s.forgetSsid {
        LinkReleases(ApplySsid(s, names[0]), names[1..]);
        var k :| 0 <= k < |names[1..]| && NamesOther(ApplySsid(s, names[0]), names[1..][k]);
        assert NamesOther(s, names[k + 1]);
      }
    }
  }

  lemma {:induction false} InUseIsOther(aps: seq<Ap>, live: string, forgotten: string, i: nat)
    ensures var r := FirstInUse(aps, live, forgotten, i); r < |aps| ==> !SsidEq(forgotten, aps[r].ssid)
    decreases |aps| - i
  {
    if i < |aps| {
      InUseIsOther(aps, live, forgotten, i + 1);
    }
  }

  lemma ActiveReleases(s: State)
    requires s.forgetSsid != "" && ApplyActive(s).forgetSsid != s.forgetSsid
    ensures NamedInUse(s, s.aps)
  {
    hide ApplySsid;
    InUseIsOther(s.aps, s.live, s.forgetSsid, 0);
    assert s.aps[FirstInUse(s.aps, s.live, s.forgetSsid, 0)].ssid != s.forgetSsid;
  }

  lemma BegunConnects(s: State, ssid: string, pass: string)
    ensures var b := BeginJoin(s, ssid);
            b.connecting && Queued(b, ssid, pass).connecting && Freed(b).connecting
            && Started(Freed(b), Connect, ssid, pass).connecting
  {
  }

  lemma JoinConnects(s: State, ssid: string, pass: string, ok: bool)
    ensures JoinAs(s, ssid, pass, ok).connecting
  {
    hide KeepPendingPsk, IsJoin, BeginJoin, Freed, Started, Queued;
    BegunConnects(s, ssid, pass);
  }

  lemma StartHolds(s: State, kind: Kind, ok: bool, wish: State)
    requires wish.forgetSsid == s.forgetSsid && wish.connecting == s.connecting
    ensures TryStart(s, kind, ok, wish).forgetSsid == s.forgetSsid
    ensures TryStart(s, kind, ok, wish).connecting == s.connecting
  {
  }

  lemma ScanStartHolds(s: State, ok: bool)
    ensures StartScan(s, ok).forgetSsid == s.forgetSsid && StartScan(s, ok).connecting == s.connecting
  {
    hide TryStart;
    StartHolds(s, Scan, ok, s.(wantScan := true));
  }

  lemma LinkStartHolds(s: State, ok: bool)
    ensures StartLink(s, ok).forgetSsid == s.forgetSsid && StartLink(s, ok).connecting == s.connecting
  {
    hide TryStart;
    StartHolds(s, Link, ok, s.(wantLink := true));
  }

  lemma InfoStartHolds(s: State, ok: bool)
    ensures StartInfo(s, ok).forgetSsid == s.forgetSsid && StartInfo(s, ok).connecting == s.connecting
  {
    hide TryStart;
    StartHolds(s, Info, ok, s.(wantInfo := true));
  }

  lemma KickReleases(s: State, ok: bool)
    requires s.wantConnect ==> s.pendSsid != ""
    ensures Kick(s, ok).connecting || (Kick(s, ok).forgetSsid == s.forgetSsid && !s.connecting)
  {
    hide JoinAs, StartScan, StartLink, StartInfo;
    if s.wantConnect {
      JoinConnects(s.(wantConnect := false), s.pendSsid, s.pendPass, ok);
    } else if s.wantScan {
      ScanStartHolds(s.(wantScan := false), ok);
    } else if s.wantLink {
      LinkStartHolds(s.(wantLink := false), ok);
    } else {
      InfoStartHolds(s.(wantInfo := false), ok);
    }
  }

  /** Nor do the steps of closing the window touch the hold or the remembered password. */
  lemma WindowStepsKeep(s: State)
    ensures Closed(s).forgetSsid == Arrived(s).forgetSsid == Missed(s).forgetSsid == s.forgetSsid
    ensures Closed(s).knownSsid == Arrived(s).knownSsid == Missed(s).knownSsid == s.knownSsid
    ensures Closed(s).knownPsk == Arrived(s).knownPsk == Missed(s).knownPsk == s.knownPsk
  {
    hide MarkActive;
  }

  lemma ConfirmHolds(s: State, timedOut: bool)
    ensures Confirm(s, timedOut).forgetSsid == s.forgetSsid
    ensures Confirm(s, timedOut).knownSsid == s.knownSsid && Confirm(s, timedOut).knownPsk == s.knownPsk
  {
    hide AlreadyOn, Closed, Arrived, Missed;
    WindowStepsKeep(s);
    WindowStepsKeep(Closed(s));
  }

  lemma RowsHeld(s: State, found: seq<Ap>)
    requires NamedInUse(s.(aps := Held(found, s.forgetSsid)), Held(found, s.forgetSsid))
    ensures NamedInUse(s, found)
  {
    var aps := Held(found, s.forgetSsid);
    var i :| 0 <= i < |aps| && aps[i].ssid != s.forgetSsid && (aps[i].active || aps[i].ssid == s.live);
    assert found[i].ssid != s.forgetSsid;
  }

  lemma ScanReleases(s: State, found: seq<Ap>)
    requires s.forgetSsid != "" && TakeScan(s, found).forgetSsid != s.forgetSsid
    ensures NamedInUse(s, found)
  {
    hide ApplyActive, NamedInUse, Held;
    ActiveReleases(s.(aps := Held(found, s.forgetSsid)));
    RowsHeld(s, found);
  }

  lemma ReportHolds(s: State, up: bool, isBusy: bool)
    ensures Reported(s, up, isBusy).forgetSsid == s.forgetSsid && Disowned(s).forgetSsid == s.forgetSsid
  {
  }

  lemma InfoHolds(s: State, saw: bool, up: bool, isBusy: bool)
    requires !(saw && !up && !isBusy)
    ensures TakeInfo(s, saw, up, isBusy).forgetSsid == s.forgetSsid
  {
    hide ForgetHolds, Reported, Disowned, Released;
    ReportHolds(s, up, isBusy);
    ReportHolds(Reported(s, up, isBusy), up, isBusy);
  }

  lemma InfoEndHolds(s: State, timedOut: bool)
    ensures EndInfo(s, timedOut).forgetSsid == s.forgetSsid
  {
    hide Confirm;
    ConfirmHolds(s.(wantLink := s.wantLink || s.connected || s.busy || s.waiting), timedOut);
  }

  lemma UnlistedHolds(s: State)
    ensures Unlisted(s).forgetSsid == s.forgetSsid
  {
    hide MarkInactive, SsidEq, ForgetHolds;
  }

  lemma LiveDroppedHolds(s: State)
    ensures LiveDropped(s).forgetSsid == s.forgetSsid
  {
    hide DropsLive;
  }

  lemma ForgetPskHolds(s: State, ssid: string)
    ensures ForgetPsk(s, ssid).forgetSsid == s.forgetSsid
  {
    hide MarkInactive, SsidEq, ForgetHolds;
  }

  lemma ListedHolds(s: State)
    ensures Listed(s).forgetSsid == s.forgetSsid
  {
    hide MarkInactive, SsidEq, ForgetHolds;
  }

  lemma ForgetEndHolds(s: State, failed: bool)
    ensures TakeForget(s, failed).forgetSsid == s.forgetSsid
  {
    hide Unlisted, LiveDropped, ForgetPsk, Listed;
    if !failed {
      var u := Unlisted(s);
      UnlistedHolds(s);
      LiveDroppedHolds(u);
      ForgetPskHolds(LiveDropped(u), s.selectedSsid);
      ListedHolds(ForgetPsk(LiveDropped(u), s.selectedSsid));
    }
  }

  lemma LinkEndHolds(s: State)
    ensures EndLink(s).forgetSsid == s.forgetSsid
  {
  }

  lemma ExitReleases(s: State, x: Exit, timedOut: bool, ok: bool)
    requires s.forgetSsid != "" && !x.ConnectDone?
    requires TakeExit(s, x, timedOut, ok).forgetSsid != s.forgetSsid
    ensures Releasing(s, JobEnded(x, timedOut, ok, ok))
  {
    hide TakeLink, TakeScan, TakeInfo, EndInfo, EndLink, TakeForget, NamesOther, NamedInUse, Confirm;
    match x {
      case InfoDone(saw, up, isBusy) =>
        InfoEndHolds(TakeInfo(s, saw, up, isBusy), timedOut);
        if !(saw && !up && !isBusy) {
          InfoHolds(s, saw, up, isBusy);
        }
      case ScanDone(found) =>
        ConfirmHolds(TakeScan(s, found), timedOut);
        ScanReleases(s, found);
      case LinkDone(names) =>
        LinkEndHolds(Confirm(TakeLink(s, names), timedOut));
        ConfirmHolds(TakeLink(s, names), timedOut);
        LinkReleases(s, names);
      case ForgetDone(failed) =>
        ForgetEndHolds(s, failed);
      case RadioDone =>
    }
  }

  lemma SlotDoesNotMatter(s: State, e: Event)
    requires Releasing(s.(job := Idle), e)
    ensures Releasing(s, e)
  {
    hide CarriesName, NameIn;
    if e.JobEnded? && e.report.LinkDone? {
      var names := e.report.names;
      var k :| 0 <= k < |names| && NamesOther(s.(job := Idle), names[k]);
      assert NamesOther(s, names[k]);
    }
  }

  lemma EndReleases(s: State, x: Exit, timedOut: bool, ok: bool, okNext: bool, n: nat)
    requires Good(s, n) && s.forgetSsid != "" && s.job.Running? && s.job.kind == KindOf(x)
    requires PollJob(s, x, timedOut, ok, okNext).forgetSsid != s.forgetSsid
    ensures PollJob(s, x, timedOut, ok, okNext).connecting || Releasing(s, JobEnded(x, timedOut, ok, ok))
  {
    hide TakeExit, Kick, HeldBack, Releasing;
    var r := s.(job := Idle);
    var t := TakeExit(r, x, timedOut, ok);
    ExitKeeps(s, x, timedOut, ok, n);
    KickReleases(t, okNext);
    if t.forgetSsid != r.forgetSsid {
      ExitReleases(r, x, timedOut, ok);
      SlotDoesNotMatter(s, JobEnded(x, timedOut, ok, ok));
    }
  }

  /** From a forget tap on, the hold ends only when a join begins, another network is forgotten, the
      radio reports that it is down, or a report names another network. */
  lemma HoldEndsOnlyBy(s: State, e: Event, n: nat)
    requires Good(s, n) && Possible(s, e) && s.forgetSsid != ""
    requires Step(s, e).forgetSsid != s.forgetSsid
    ensures Step(s, e).connecting || Releasing(s, e) || (e.ForgetTapped? && s.selectedSsid != s.forgetSsid)
  {
    hide TakeExit, ApplyActive, Kick, HeldBack, IsCurrent, UseSessionPsk, NamedInUse, NamesOther, MarkInactive, JoinAs;
    match e {
      case JoinTapped(enterprise, ok) =>
        if s.selectedSsid != "" {
          JoinConnects(UsingPass(s, true), s.selectedSsid, s.knownPsk, ok);
          JoinConnects(UsingPass(s, false), s.selectedSsid, "", ok);
        }
      case PasswordSubmitted(password, _, ok) =>
        var ssid := PassSsid(s.connectSsid, s.selectedSsid);
        if ssid != "" {
          JoinConnects(Remembered(s, ssid, password), SelfCopied(s.connectSsid), password, ok);
          JoinConnects(Remembered(s, ssid, password), s.selectedSsid, password, ok);
        }
      case Kicked(ok) => KickReleases(s, ok);
      case ConfirmChecked(timedOut) => ConfirmHolds(s, timedOut);
      case SignalSampled => ActiveReleases(s);
      case JobEnded(x, timedOut, ok, okNext) =>
        if s.job.Running? && s.job.kind == KindOf(x) {
          EndReleases(s, x, timedOut, ok, okNext, n);
        }
      case _ =>
    }
  }
}
