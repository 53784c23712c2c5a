/** What the end of a process leads to: the report it leaves, and the work that was waiting for it. */
module WifiEnds {
  import opened Common
  import opened WifiFlow
  import opened WifiState
  import opened WifiRuns
  import opened WifiEffects

  /** What no report touches. */
  predicate SameBehind(s: State, r: State) {
    && r.joinsStarted == s.joinsStarted && r.connectSsid == s.connectSsid && r.forgetSsid == s.forgetSsid
    && r.pendSsid == s.pendSsid && r.pendPass == s.pendPass && r.needPass == s.needPass && r.screenOff == s.screenOff
  }

  /** A join has ended, with its slot free and nothing else begun. Success opens the window, or finds it
      closed already on the network asked for; anything else ends the joining. */
  predicate JoinEnded(s: State, t: State, rc: int, out: string) {
    var v := Verdict(s, rc, out);
    var there := s.connected && s.live == s.connectSsid;
    && t.job.Idle? && t.stuck == s.stuck && t.forgetting == s.forgetting && SameBehind(s, t)
    && t.connected == s.connected && t.live == s.live
    && t.waiting == (v.Success? && !there) && t.connecting == t.waiting && t.busy == t.waiting
    && t.wantInfo == (v.Success? || s.wantInfo) && t.wantLink == (v.Success? || s.wantLink)
    && t.wantScan == ((v.Success? && there) || s.wantScan)
    && t.wantConnect == (s.wantConnect && !(v.Success? && s.pendSsid == s.connectSsid))
    && t.selectedSsid == (if v.WrongPass? || v.OpenPass? then s.connectSsid else s.selectedSsid)
    && (if v.WrongPass? && s.knownSsid == s.connectSsid then t.knownSsid == "" && t.knownPsk == "" else PskSame(s, t))
    && t.sheet == EndSheet(s, v, there)
    && if v.Success? && there then
         && |t.aps| == |s.aps|
         && forall i :: 0 <= i < |t.aps| ==> t.aps[i] == Ap(s.aps[i].ssid, s.aps[i].ssid == s.connectSsid)
       else t.aps == s.aps
  }

  predicate PskSame(s: State, r: State) {
    r.knownSsid == s.knownSsid && r.knownPsk == s.knownPsk
  }

  /** The sheet a join leaves: none on the network, the password sheet for a password asked for or
      blamed, and after a failure the password sheet again if one was typed. */
  function EndSheet(s: State, v: Action, there: bool): Sheet {
    match v
    case Success => if there then NoSheet else if s.sheet.Pass? then Detail else s.sheet
    case WrongPass => Pass
    case OpenPass => Pass
    case Fail => if s.sheet.NoSheet? then NoSheet else if s.needPass then Pass else Detail
    case _ => s.sheet
  }

  lemma OverIs(s: State)
    ensures JoinOver(s.(job := Idle)) == s.(job := Idle, connecting := false, busy := false)
  {
  }

  lemma SuccessEnds(s: State, rc: int, out: string, ok: bool, n: nat)
    requires Good(s, n) && IsJoin(s.job) && Answers(s.job, rc, out) && Verdict(s, rc, out).Success?
    requires s.connectSsid != ""
    ensures JoinEnded(s, Confirm(OpenWindow(JoinOver(s.(job := Idle))), false), rc, out)
  {
    hide HeldBack, WithinBudget, ProbeAnswered, Verdict;
    OverIs(s);
  }

  lemma WrongPassEnds(s: State, rc: int, out: string, n: nat)
    requires Good(s, n) && IsJoin(s.job) && Verdict(s, rc, out).WrongPass? && s.connectSsid != ""
    ensures JoinEnded(s, ShowPass(ForgetPsk(JoinOver(s.(job := Idle)), s.connectSsid)), rc, out)
  {
    hide HeldBack, WithinBudget, ProbeAnswered, Verdict;
    OverIs(s);
    var over := s.(job := Idle, connecting := false, busy := false);
    if s.knownSsid == s.connectSsid {
      assert ForgetPsk(over, s.connectSsid) == over.(knownSsid := "", knownPsk := "");
    } else {
      assert ForgetPsk(over, s.connectSsid) == over;
    }
  }

  lemma OpenPassEnds(s: State, rc: int, out: string, n: nat)
    requires Good(s, n) && IsJoin(s.job) && Verdict(s, rc, out).OpenPass? && s.connectSsid != ""
    ensures JoinEnded(s, ShowPass(JoinOver(s.(job := Idle))), rc, out)
  {
    hide HeldBack, WithinBudget, ProbeAnswered, Verdict;
    OverIs(s);
  }

  lemma FailEnds(s: State, rc: int, out: string, n: nat)
    requires Good(s, n) && IsJoin(s.job) && Verdict(s, rc, out).Fail?
    ensures JoinEnded(s, ShowFailure(JoinOver(s.(job := Idle))), rc, out)
  {
    hide HeldBack, WithinBudget, ProbeAnswered, Verdict;
    OverIs(s);
  }

  lemma PendingEnds(s: State, rc: int, out: string, n: nat)
    requires Good(s, n) && IsJoin(s.job) && Verdict(s, rc, out).WaitPending?
    ensures JoinEnded(s, JoinOver(s.(job := Idle)), rc, out)
  {
    hide HeldBack, WithinBudget, ProbeAnswered, Verdict;
    OverIs(s);
  }

  lemma AskedIsNamed(s: State, rc: int, out: string, n: nat)
    requires Good(s, n) && IsJoin(s.job) && Answers(s.job, rc, out)
    ensures Verdict(s, rc, out).Fail? || s.connectSsid != ""
  {
    hide HeldBack, NeedPw, WrongPw, JobOk;
  }

  lemma JoinEndEffect(s: State, rc: int, out: string, ok: bool, n: nat)
    requires Good(s, n) && IsJoin(s.job) && Answers(s.job, rc, out)
    ensures JoinEnded(s, TakeJoin(s.(job := Idle), rc, out, ok), rc, out)
  {
    hide Good, JoinEnded, Verdict, OnConnectJob, Answers, Confirm, OpenWindow, JoinOver, ShowPass, ForgetPsk;
    hide ShowFailure;
    hide Rejoin;
    OnlyEvidenceDecides(s, rc, out, n);
    AskedIsNamed(s, rc, out, n);
    RetryNeverHappens(s, rc, out, n);
    match Verdict(s, rc, out) {
      case Success => SuccessEnds(s, rc, out, ok, n);
      case WrongPass => WrongPassEnds(s, rc, out, n);
      case OpenPass => OpenPassEnds(s, rc, out, n);
      case WaitPending => PendingEnds(s, rc, out, n);
      case Fail => FailEnds(s, rc, out, n);
      case RetryPsk => assert false;
    }
  }

  /** A forget has ended. A failed one shows the network again; otherwise its rows, its password and,
      unless another network is live, the connection go, and the list is shown and read anew. */
  predicate ForgetEnded(s: State, t: State, failed: bool) {
    var gone := if s.forgetSsid != "" then s.forgetSsid else s.selectedSsid;
    var drops := (s.live != "" && (s.live == s.selectedSsid || s.live == s.forgetSsid))
                 || (s.forgetSsid != "" && s.live == "");
    if failed then t == s.(job := Idle, forgetting := false, sheet := Detail)
    else
      && t.job.Idle? && !t.forgetting && t.stuck == s.stuck && SameBehind(s, t)
      && t.connecting == s.connecting && t.waiting == s.waiting && t.busy == s.busy
      && RowsGone(s.aps, t.aps, gone)
      && t.live == (if drops then "" else s.live) && t.connected == (s.connected && !drops)
      && (if s.knownSsid != "" && s.knownSsid == s.selectedSsid then t.knownSsid == "" && t.knownPsk == ""
          else PskSame(s, t))
      && t.sheet.List? && t.selectedSsid == s.selectedSsid
      && t.wantInfo && t.wantScan && t.wantLink == s.wantLink && t.wantConnect == s.wantConnect
  }

  function Dropping(s: State, drops: bool): State {
    s.(connected := s.connected && !drops, live := if drops then "" else s.live)
  }

  function Unknowing(s: State, knows: bool): State {
    s.(knownSsid := if knows then "" else s.knownSsid, knownPsk := if knows then "" else s.knownPsk)
  }

  function ForgetLeft(s: State, drops: bool, knows: bool): State {
    Listed(Unknowing(Dropping(s.(job := Idle, forgetting := false, aps := MarkInactive(s.aps, Gone(s))), drops), knows))
  }

  lemma UnlistedIs(s: State)
    ensures Unlisted(s.(job := Idle)) == s.(job := Idle, forgetting := false, aps := MarkInactive(s.aps, Gone(s)))
    ensures DropsLive(Unlisted(s.(job := Idle))) == DropsLive(s)
  {
    hide MarkInactive, SsidEq, ForgetHolds;
  }

  lemma DroppedIs(s: State)
    ensures LiveDropped(s) == Dropping(s, DropsLive(s))
  {
    hide DropsLive;
    if DropsLive(s) {
      assert LiveDropped(s) == s.(connected := false, live := "");
    }
  }

  lemma PskForgottenIs(s: State, ssid: string)
    ensures ForgetPsk(s, ssid) == Unknowing(s, SsidEq(s.knownSsid, ssid))
  {
    hide SsidEq;
    if SsidEq(s.knownSsid, ssid) {
      assert ForgetPsk(s, ssid) == s.(knownSsid := "", knownPsk := "");
    }
  }

  lemma DroppingKeepsPsk(s: State, drops: bool)
    ensures Dropping(s, drops).knownSsid == s.knownSsid
  {
  }

  lemma ForgetLeaves(s: State)
    ensures TakeForget(s.(job := Idle), false) == ForgetLeft(s, DropsLive(s), SsidEq(s.knownSsid, s.selectedSsid))
  {
    hide Unlisted, LiveDropped, ForgetPsk, DropsLive, SsidEq, MarkInactive, Gone, Dropping, Unknowing, Listed;
    var u := Unlisted(s.(job := Idle));
    UnlistedIs(s);
    DroppedIs(u);
    DroppingKeepsPsk(u, DropsLive(s));
    PskForgottenIs(LiveDropped(u), s.selectedSsid);
  }

  lemma LeftIs(s: State, drops: bool, knows: bool)
    ensures var t := ForgetLeft(s, drops, knows);
            && t.job.Idle? && !t.forgetting && t.stuck == s.stuck && SameBehind(s, t)
            && t.connecting == s.connecting && t.waiting == s.waiting && t.busy == s.busy
            && t.aps == MarkInactive(s.aps, Gone(s))
            && t.live == (if drops then "" else s.live) && t.connected == (s.connected && !drops)
            && (if knows then t.knownSsid == "" && t.knownPsk == "" else PskSame(s, t))
            && t.sheet.List? && t.selectedSsid == s.selectedSsid
            && t.wantInfo && t.wantScan && t.wantLink == s.wantLink && t.wantConnect == s.wantConnect
  {
    hide MarkInactive, Gone;
  }

  lemma RowsAreGone(aps: seq<Ap>, name: string)
    ensures RowsGone(aps, MarkInactive(aps, name), name)
  {
  }

  lemma ForgetLeftIsEnded(s: State)
    ensures ForgetEnded(s, ForgetLeft(s, DropsLive(s), SsidEq(s.knownSsid, s.selectedSsid)), false)
  {
    hide ForgetLeft, MarkInactive, RowsGone, SameBehind, PskSame;
    LeftIs(s, DropsLive(s), SsidEq(s.knownSsid, s.selectedSsid));
    RowsAreGone(s.aps, Gone(s));
  }

  lemma ForgetEndEffect(s: State, failed: bool, n: nat)
    requires Good(s, n) && IsForget(s.job)
    ensures ForgetEnded(s, TakeForget(s.(job := Idle), failed), failed)
  {
    hide Good, ForgetLeft, DropsLive, SsidEq, ForgetEnded, TakeForget;
    if failed {
      FailedForgetEnds(s);
    } else {
      ForgetLeaves(s);
      ForgetLeftIsEnded(s);
    }
  }

  lemma FailedForgetEnds(s: State)
    ensures ForgetEnded(s, TakeForget(s.(job := Idle), true), true)
  {
  }

  // ---------------------------------------------------------------- any process

  /** What a process's report makes of the state, with its slot free and nothing begun yet. */
  ghost predicate ReportTaken(s: State, t: State, x: Exit, timedOut: bool) {
    var free := s.(job := Idle);
    match x
    case RadioDone => t == free.(wantInfo := true, wantScan := true)
    case InfoDone(saw, up, isBusy) =>
      exists u :: InfoTaken(free, u, saw, up, isBusy)
                  && WindowTaken(u.(wantLink := u.wantLink || u.connected || u.busy || u.waiting), t, timedOut)
    case ScanDone(found) => exists u :: ScanTaken(free, u, found) && WindowTaken(u, t, timedOut)
    case LinkDone(names) =>
      exists u, v :: LinkTaken(free, u, names) && WindowTaken(u, v, timedOut)
                     && t == v.(wantInfo := v.wantInfo || v.waiting)
    case ConnectDone(rc, out) => JoinEnded(s, t, rc, out)
    case ForgetDone(failed) => ForgetEnded(s, t, failed)
  }

  /** Queued joins survive a report, unless the join that succeeded was what they were for. */
  predicate StillQueued(s: State, x: Exit) {
    s.wantConnect
    && (x.ConnectDone? && Verdict(s, x.rc, x.out).Success? ==> s.pendSsid != s.connectSsid)
  }

  predicate Wanted(r: State, kind: Kind) {
    || r.job == Running(kind, "", "")
    || (kind.Info? && r.wantInfo) || (kind.Link? && r.wantLink) || (kind.Scan? && r.wantScan)
  }

  /** What the end of a join leads to once the next work has started. Only a queued join keeps the HUD
      connecting to something else. */
  predicate JoinLeads(s: State, r: State, rc: int, out: string, okNext: bool) {
    var v := Verdict(s, rc, out);
    var there := s.connected && s.live == s.connectSsid;
    var queued := StillQueued(s, ConnectDone(rc, out));
    && r.sheet == EndSheet(s, v, there)
    && r.selectedSsid == (if v.WrongPass? || v.OpenPass? then s.connectSsid else s.selectedSsid)
    && (if v.WrongPass? && s.knownSsid == s.connectSsid then r.knownSsid == "" && r.knownPsk == "" else PskSame(s, r))
    && (if queued then
          r.connecting && !r.waiting && r.connectSsid == s.pendSsid && !r.wantConnect
          && r.job == if okNext then Running(Connect, s.pendSsid, s.pendPass) else Idle
        else
          && !IsJoin(r.job) && r.connectSsid == s.connectSsid
          && r.waiting == (v.Success? && !there) && r.connecting == r.waiting)
    && (v.Success? ==> Wanted(r, Info) && Wanted(r, Link))
    && (v.Success? && there ==> Wanted(r, Scan))
    && (v.WaitPending? ==> queued)
  }

  /** A process that ends makes room for what is queued: its report is taken, and then the next work
      starts. A report of a process that does not run changes nothing. */
  ghost predicate EndTaken(s: State, r: State, x: Exit, timedOut: bool, okNext: bool) {
    if !(s.job.Running? && s.job.kind == KindOf(x)) then r == s
    else
      && (exists t :: ReportTaken(s, t, x, timedOut) && WorkTaken(t, r, okNext))
      && r.joinsStarted <= s.joinsStarted + One(StillQueued(s, x))
      && (x.ConnectDone? ==> JoinLeads(s, r, x.rc, x.out, okNext))
  }

  /** What the next work leaves alone, and what it makes of a queued join. */
  predicate WorkLeads(t: State, r: State, okNext: bool) {
    && r.sheet == t.sheet && r.selectedSsid == t.selectedSsid && PskSame(t, r)
    && (if t.wantConnect then
          r.connecting && !r.waiting && r.connectSsid == t.pendSsid && !r.wantConnect
          && r.job == if okNext then Running(Connect, t.pendSsid, t.pendPass) else Idle
        else
          !IsJoin(r.job) && r.connectSsid == t.connectSsid && r.waiting == t.waiting && r.connecting == t.connecting)
    && (t.wantInfo ==> Wanted(r, Info)) && (t.wantLink ==> Wanted(r, Link)) && (t.wantScan ==> Wanted(r, Scan))
  }

  lemma QueuedJoinLeads(t: State, r: State, okNext: bool)
    requires t.job.Idle? && t.wantConnect && WorkTaken(t, r, okNext)
    ensures WorkLeads(t, r, okNext)
  {
    hide WishRuns;
  }

  lemma WishLeads(t: State, r: State, okNext: bool)
    requires t.job.Idle? && !t.wantConnect && WorkTaken(t, r, okNext)
    ensures WorkLeads(t, r, okNext)
  {
    hide JoinBegun;
  }

  lemma JoinEndLeads(s: State, t: State, r: State, rc: int, out: string, okNext: bool)
    requires IsJoin(s.job) && JoinEnded(s, t, rc, out) && WorkTaken(t, r, okNext)
    ensures JoinLeads(s, r, rc, out, okNext)
  {
    hide Verdict, RowsGone, WorkTaken, Wanted, EndSheet;
    PendingIsQueued(s, rc, out);
    if t.wantConnect {
      QueuedJoinLeads(t, r, okNext);
    } else {
      WishLeads(t, r, okNext);
    }
  }

  lemma PendingIsQueued(s: State, rc: int, out: string)
    ensures Verdict(s, rc, out).WaitPending? ==> s.wantConnect
  {
    hide NeedPw, WrongPw, JobOk;
  }

  lemma InfoEnds(s: State, saw: bool, up: bool, isBusy: bool, timedOut: bool, n: nat)
    requires Good(s, n) && s.job.Running? && !IsJoin(s.job) && !IsForget(s.job)
    ensures ReportTaken(s, EndInfo(TakeInfo(s.(job := Idle), saw, up, isBusy), timedOut),
                        InfoDone(saw, up, isBusy), timedOut)
  {
    hide Good, TakeInfo, Confirm, InfoTaken, WindowTaken;
    var free := s.(job := Idle);
    var u := TakeInfo(free, saw, up, isBusy);
    SlotFreed(s, n);
    InfoEffect(free, saw, up, isBusy, n);
    InfoKeeps(free, saw, up, isBusy, n);
    LinkWantedKeeps(u, n);
    ConfirmEffect(LinkWanted(u), timedOut, n);
  }

  lemma ScanEnds(s: State, found: seq<Ap>, timedOut: bool, n: nat)
    requires Good(s, n) && s.job.Running? && !IsJoin(s.job) && !IsForget(s.job)
    ensures ReportTaken(s, Confirm(TakeScan(s.(job := Idle), found), timedOut), ScanDone(found), timedOut)
  {
    hide Good, TakeScan, Confirm, ScanTaken, WindowTaken;
    var free := s.(job := Idle);
    SlotFreed(s, n);
    ScanEffect(free, found, n);
    ScanKeeps(free, found, n);
    ConfirmEffect(TakeScan(free, found), timedOut, n);
  }

  lemma LinkEnds(s: State, names: seq<string>, timedOut: bool, n: nat)
    requires Good(s, n) && s.job.Running? && !IsJoin(s.job) && !IsForget(s.job)
    ensures ReportTaken(s, EndLink(Confirm(TakeLink(s.(job := Idle), names), timedOut)), LinkDone(names), timedOut)
  {
    hide Good, TakeLink, Confirm, LinkTaken, WindowTaken;
    var free := s.(job := Idle);
    var u := TakeLink(free, names);
    SlotFreed(s, n);
    LinkEffect(free, names, n);
    LinkKeeps(free, names, n);
    ConfirmEffect(u, timedOut, n);
    assert LinkTaken(free, u, names) && WindowTaken(u, Confirm(u, timedOut), timedOut);
  }

  lemma ReportEffect(s: State, x: Exit, timedOut: bool, ok: bool, n: nat)
    requires Good(s, n) && s.job.Running? && s.job.kind == KindOf(x)
    requires x.ConnectDone? ==> Answers(s.job, x.rc, x.out)
    ensures ReportTaken(s, TakeExit(s.(job := Idle), x, timedOut, ok), x, timedOut)
  {
    hide Good, TakeInfo, TakeScan, TakeLink, TakeJoin, TakeForget, Confirm, EndInfo, EndLink, Answers;
    hide InfoTaken, ScanTaken, LinkTaken, WindowTaken, JoinEnded, ForgetEnded;
    match x {
      case RadioDone =>
      case InfoDone(saw, up, isBusy) => InfoEnds(s, saw, up, isBusy, timedOut, n);
      case ScanDone(found) => ScanEnds(s, found, timedOut, n);
      case LinkDone(names) => LinkEnds(s, names, timedOut, n);
      case ConnectDone(rc, out) => JoinEndEffect(s, rc, out, ok, n);
      case ForgetDone(failed) => ForgetEndEffect(s, failed, n);
    }
  }

  predicate Quiet(s: State, t: State) {
    t.joinsStarted == s.joinsStarted && t.job == s.job && t.wantConnect == s.wantConnect
  }

  lemma InfoQuiet(s: State, u: State, saw: bool, up: bool, isBusy: bool)
    requires InfoTaken(s, u, saw, up, isBusy)
    ensures Quiet(s, u) && Quiet(u, u.(wantLink := u.wantLink || u.connected || u.busy || u.waiting))
  {
  }

  lemma WindowQuiet(s: State, t: State, timedOut: bool)
    requires WindowTaken(s, t, timedOut)
    ensures Quiet(s, t) && Quiet(t, t.(wantInfo := t.wantInfo || t.waiting))
  {
  }

  lemma OnlyNameQuiet(s: State, t: State)
    requires OnlyName(s, t)
    ensures Quiet(s, t)
  {
  }

  lemma ScanQuiet(s: State, t: State, found: seq<Ap>)
    requires ScanTaken(s, t, found)
    ensures Quiet(s, t)
  {
    hide RowsTaken, FirstRowTaken, LiveFromRow, NamedInUse, OnlyName;
    OnlyNameQuiet(s.(aps := t.aps), t);
  }

  lemma LinkQuiet(s: State, t: State, names: seq<string>)
    requires LinkTaken(s, t, names)
    ensures Quiet(s, t)
  {
    hide InOrder, LiveFromName, SomeEndsHold, OnlyName;
    OnlyNameQuiet(s, t);
  }

  predicate StartsNothing(s: State, t: State, x: Exit) {
    t.joinsStarted == s.joinsStarted && t.job.Idle? && t.wantConnect == StillQueued(s, x)
  }

  lemma JoinEndQuiet(s: State, t: State, rc: int, out: string, timedOut: bool)
    requires ReportTaken(s, t, ConnectDone(rc, out), timedOut)
    ensures StartsNothing(s, t, ConnectDone(rc, out))
  {
    hide Verdict, EndSheet;
  }

  lemma ForgetEndQuiet(s: State, t: State, failed: bool, timedOut: bool)
    requires ReportTaken(s, t, ForgetDone(failed), timedOut)
    ensures StartsNothing(s, t, ForgetDone(failed))
  {
    hide RowsGone;
  }

  lemma RadioEndQuiet(s: State, t: State, timedOut: bool)
    requires ReportTaken(s, t, RadioDone, timedOut)
    ensures StartsNothing(s, t, RadioDone)
  {
  }

  lemma ScanEndQuiet(s: State, t: State, found: seq<Ap>, timedOut: bool)
    requires ReportTaken(s, t, ScanDone(found), timedOut)
    ensures StartsNothing(s, t, ScanDone(found))
  {
    hide ScanTaken, WindowTaken;
    var u :| ScanTaken(s.(job := Idle), u, found) && WindowTaken(u, t, timedOut);
    ScanQuiet(s.(job := Idle), u, found);
    WindowQuiet(u, t, timedOut);
  }

  lemma InfoEndQuiet(s: State, t: State, saw: bool, up: bool, isBusy: bool, timedOut: bool)
    requires ReportTaken(s, t, InfoDone(saw, up, isBusy), timedOut)
    ensures StartsNothing(s, t, InfoDone(saw, up, isBusy))
  {
    hide InfoTaken, WindowTaken;
    var u :| InfoTaken(s.(job := Idle), u, saw, up, isBusy)
             && WindowTaken(u.(wantLink := u.wantLink || u.connected || u.busy || u.waiting), t, timedOut);
    InfoQuiet(s.(job := Idle), u, saw, up, isBusy);
    WindowQuiet(u.(wantLink := u.wantLink || u.connected || u.busy || u.waiting), t, timedOut);
  }

  lemma LinkEndQuiet(s: State, t: State, names: seq<string>, timedOut: bool)
    requires ReportTaken(s, t, LinkDone(names), timedOut)
    ensures StartsNothing(s, t, LinkDone(names))
  {
    hide LinkTaken, WindowTaken;
    var u, v :| LinkTaken(s.(job := Idle), u, names) && WindowTaken(u, v, timedOut)
                && t == v.(wantInfo := v.wantInfo || v.waiting);
    LinkQuiet(s.(job := Idle), u, names);
    WindowQuiet(u, v, timedOut);
  }

  /** A report starts and queues no join. */
  lemma ReportStartsNothing(s: State, t: State, x: Exit, timedOut: bool)
    requires s.job.Running? && s.job.kind == KindOf(x) && ReportTaken(s, t, x, timedOut)
    ensures t.joinsStarted == s.joinsStarted && t.job.Idle? && t.wantConnect == StillQueued(s, x)
  {
    hide ReportTaken, StillQueued;
    match x {
      case RadioDone => RadioEndQuiet(s, t, timedOut);
      case InfoDone(saw, up, isBusy) => InfoEndQuiet(s, t, saw, up, isBusy, timedOut);
      case ScanDone(found) => ScanEndQuiet(s, t, found, timedOut);
      case LinkDone(names) => LinkEndQuiet(s, t, names, timedOut);
      case ConnectDone(rc, out) => JoinEndQuiet(s, t, rc, out, timedOut);
      case ForgetDone(failed) => ForgetEndQuiet(s, t, failed, timedOut);
    }
  }

  lemma WorkStartsOneJoin(t: State, r: State, okNext: bool)
    requires t.job.Idle? && WorkTaken(t, r, okNext)
    ensures r.joinsStarted <= t.joinsStarted + One(t.wantConnect)
  {
  }

  lemma EndEffect(s: State, x: Exit, timedOut: bool, ok: bool, okNext: bool, n: nat)
    requires Good(s, n) && Possible(s, JobEnded(x, timedOut, ok, okNext))
    ensures EndTaken(s, WifiState.PollJob(s, x, timedOut, ok, okNext), x, timedOut, okNext)
  {
    hide Good, TakeExit, Kick, ReportTaken, WorkTaken, JoinLeads, Answers, StillQueued;
    if s.job.Running? && s.job.kind == KindOf(x) {
      var t := TakeExit(s.(job := Idle), x, timedOut, ok);
      var r := Kick(t, okNext);
      ExitKeeps(s, x, timedOut, ok, n);
      ReportEffect(s, x, timedOut, ok, n);
      KickEffect(t, okNext, n);
      ReportStartsNothing(s, t, x, timedOut);
      WorkStartsOneJoin(t, r, okNext);
      if x.ConnectDone? {
        JoinReport(s, t, x.rc, x.out, timedOut);
        JoinEndLeads(s, t, r, x.rc, x.out, okNext);
      }
    }
  }

  lemma JoinReport(s: State, t: State, rc: int, out: string, timedOut: bool)
    requires ReportTaken(s, t, ConnectDone(rc, out), timedOut)
    ensures JoinEnded(s, t, rc, out)
  {
  }

  // ---------------------------------------------------------------- any event

  /** What each event is for. */
  ghost predicate EventTaken(s: State, r: State, e: Event) {
    match e
    case JoinTapped(enterprise, ok) => TapTaken(s, r, enterprise, ok)
    case PasswordSubmitted(password, enterprise, ok) => PasswordTaken(s, r, password, enterprise, ok)
    case ForgetTapped(ok) => ForgetTaken(s, r, s.selectedSsid, ok)
    case RowSelected(row) => r == if row < |s.aps| then s.(selectedSsid := s.aps[row].ssid) else s
    case ScanRequested(ok) => StartTaken(s, r, Scan, ok)
    case InfoRequested(ok) => StartTaken(s, r, Info, ok)
    case RadioRequested(ok) => StartTaken(s, r, Radio, ok)
    case Kicked(ok) => WorkTaken(s, r, ok)
    case ConfirmChecked(timedOut) => WindowTaken(s, r, timedOut)
    case SignalSampled => ActiveTaken(s, r)
    case SheetChanged(sheet) => r == s.(sheet := sheet)
    case ScreenChanged(off) => r == s.(screenOff := off)
    case JobEnded(x, timedOut, ok, okNext) => EndTaken(s, r, x, timedOut, okNext)
  }

  lemma EventEffect(s: State, e: Event, n: nat)
    requires Good(s, n) && Possible(s, e)
    ensures EventTaken(s, Step(s, e), e)
  {
    hide Good, Possible, JoinPicked, SubmitPass, ForgetNetwork, ApplyActive, Kick, Confirm, StartScan, StartInfo;
    hide StartRadio, WifiState.PollJob;
    hide TapTaken, PasswordTaken, ForgetTaken, StartTaken, WorkTaken, WindowTaken, ActiveTaken, EndTaken;
    match e {
      case JoinTapped(enterprise, ok) => TapEffect(s, enterprise, ok, n);
      case PasswordSubmitted(password, enterprise, ok) => SubmitEffect(s, password, enterprise, ok, n);
      case ForgetTapped(ok) => ForgetEffect(s, s.selectedSsid, ok, n);
      case RowSelected(_) =>
      case ScanRequested(ok) => StartEffect(s, ok);
      case InfoRequested(ok) => StartEffect(s, ok);
      case RadioRequested(ok) => StartEffect(s, ok);
      case Kicked(ok) => KickEffect(s, ok, n);
      case ConfirmChecked(timedOut) => ConfirmEffect(s, timedOut, n);
      case SignalSampled => ActiveEffect(s, n);
      case SheetChanged(_) =>
      case ScreenChanged(_) =>
      case JobEnded(x, timedOut, ok, okNext) => EndEffect(s, x, timedOut, ok, okNext, n);
    }
  }

  /** Every run is one of such events. */
  lemma {:induction false} RunEffect(s: State, events: seq<Event>, n: nat)
    requires Good(s, n) && PossibleRun(s, events)
    ensures forall k :: 0 <= k < |events| ==> EventTaken(Run(s, events[..k]), Run(s, events[..k + 1]), events[k])
  {
    hide Good, Possible, Step, Asks, EventTaken;
    if events != [] {
      var m := |events| - 1;
      RunEffect(s, events[..m], n);
      RunKeeps(s, events[..m], n);
      EventEffect(Run(s, events[..m]), events[m], n + Asked(events[..m]));
      forall k | 0 <= k < |events|
        ensures EventTaken(Run(s, events[..k]), Run(s, events[..k + 1]), events[k])
      {
        if k < m {
          assert events[..m][..k] == events[..k] && events[..m][..k + 1] == events[..k + 1];
        } else {
          assert events[..m + 1] == events;
        }
      }
    }
  }
}
