/** The HUD's Wi-Fi state and what each handler makes of it: one child process at a time, work queued
    behind it, a window to confirm a join, and a hold on a forgotten network. */
module WifiState {
  import opened WifiFlow

  const MIN_PASSWORD := 8

  datatype Kind = Radio | Info | Scan | Connect | Link | Forget

  /** The child process; a join or a forget carries the name the script was given, a join also the
      password. */
  datatype Job = Idle | Running(kind: Kind, name: string, pass: string)

  datatype Ap = Ap(ssid: string, active: bool)

  datatype Sheet = NoSheet | List | Detail | Pass

  datatype State = State(
    job: Job,
    connecting: bool,
    forgetting: bool,
    waiting: bool,           // join_wait_live: the join is done, the network not yet seen
    connectSsid: string,
    needPass: bool,
    wantConnect: bool,
    wantScan: bool,
    wantInfo: bool,
    wantLink: bool,
    pendSsid: string,
    pendPass: string,
    knownSsid: string,
    knownPsk: string,
    forgetSsid: string,
    selectedSsid: string,
    connected: bool,
    busy: bool,
    live: string,
    aps: seq<Ap>,
    sheet: Sheet,
    screenOff: bool,
    /** How many join processes have been started. */
    joinsStarted: nat,
    /** A join whose process did not start, with nothing having replaced it since. */
    stuck: bool
  )

  const START := State(Idle, false, false, false, "", false, false, false, false, false,
                       "", "", "", "", "", "", false, false, "", [], NoSheet, false, 0, false)

  // ---------------------------------------------------------------- the child process

  function Started(s: State, kind: Kind, name: string, pass: string): State {
    s.(job := Running(kind, name, pass), joinsStarted := s.joinsStarted + if kind.Connect? then 1 else 0)
  }

  predicate IsJoin(j: Job) {
    j.Running? && j.kind.Connect?
  }

  predicate IsForget(j: Job) {
    j.Running? && j.kind.Forget?
  }

  // ---------------------------------------------------------------- access points

  function MarkActive(aps: seq<Ap>, ssid: string): seq<Ap> {
    if ssid == "" then aps
    else seq(|aps|, i requires 0 <= i < |aps| => aps[i].(active := aps[i].ssid == ssid))
  }

  function MarkInactive(aps: seq<Ap>, ssid: string): seq<Ap> {
    seq(|aps|, i requires 0 <= i < |aps| =>
      if ssid == "" || aps[i].ssid == ssid then aps[i].(active := false) else aps[i])
  }

  /** A scan's rows, without claiming the forgotten network active. */
  function Held(found: seq<Ap>, forgotten: string): seq<Ap> {
    seq(|found|, i requires 0 <= i < |found| =>
      found[i].(active := found[i].active && !SsidEq(forgotten, found[i].ssid)))
  }

  /** The first row that is in use, unless it is the forgotten one. */
  function FirstInUse(aps: seq<Ap>, live: string, forgotten: string, i: nat): (r: nat)
    ensures r < |aps| ==> aps[r].active || (live != "" && aps[r].ssid == live)
    decreases |aps| - i
  {
    if i >= |aps| then |aps|
    else if (aps[i].active || (live != "" && aps[i].ssid == live)) && !SsidEq(forgotten, aps[i].ssid) then i
    else FirstInUse(aps, live, forgotten, i + 1)
  }

  function Find(aps: seq<Ap>, ssid: string, i: nat): (r: nat)
    ensures r < |aps| ==> aps[r].ssid == ssid && ssid != ""
    decreases |aps| - i
  {
    if i >= |aps| || ssid == "" then |aps| else if aps[i].ssid == ssid then i else Find(aps, ssid, i + 1)
  }

  predicate IsCurrent(s: State, ssid: string) {
    if SsidEq(s.forgetSsid, ssid) then false
    else if AlreadyOn(s.connected, s.live, ssid) then true
    else if ssid == "" || !s.connected then false
    else
      var i := Find(s.aps, ssid, 0);
      i < |s.aps| && s.aps[i].active
  }

  // ---------------------------------------------------------------- a network name comes in

  function SkipBlanks(s: string): string {
    if s != "" && (s[0] == ' ' || s[0] == '\t') then SkipBlanks(s[1..]) else s
  }

  function UpTo(s: string, end: char): string {
    if s == "" || s[0] == end then "" else [s[0]] + UpTo(s[1..], end)
  }

  function WithoutPrefix(s: string): string {
    if |s| > 7 && s[..7] == "gemini-" then s[7..] else s
  }

  /** `short` is `long` without a suffix such as "-2.4G". */
  predicate Sibling(short: string, long: string) {
    |short| < |long| && long[..|short|] == short && (long[|short|] == '-' || long[|short|] == '_')
  }

  /** A sibling of the network being joined, and the forgotten network, are not taken. */
  predicate NameIgnored(s: State, name: string) {
    || (s.connectSsid != "" && name != s.connectSsid
        && (Sibling(name, s.connectSsid) || Sibling(s.connectSsid, name)))
    || SsidEq(s.forgetSsid, name)
  }

  /** Any other name releases the hold and, unless it is the live one without its suffix, is live. */
  function ApplyName(s: State, name: string): State {
    if NameIgnored(s, name) then s
    else
      s.(forgetSsid := if name != "" then "" else s.forgetSsid,
         live := if Sibling(name, s.live) then s.live else name)
  }

  /** The name a raw string carries. */
  function NameIn(raw: string): string {
    UpTo(UpTo(WithoutPrefix(SkipBlanks(raw)), '\n'), '\r')
  }

  predicate CarriesName(raw: string) {
    SkipBlanks(raw) != "" && SkipBlanks(raw) != "--"
  }

  function ApplySsid(s: State, raw: string): State {
    if CarriesName(raw) then ApplyName(s, NameIn(raw)) else s
  }

  function ApplyActive(s: State): State {
    var i := FirstInUse(s.aps, s.live, s.forgetSsid, 0);
    if i < |s.aps| && s.aps[i].ssid != "" then ApplySsid(s, s.aps[i].ssid) else s
  }

  // ---------------------------------------------------------------- joining and forgetting

  function BeginJoin(s: State, ssid: string): State {
    s.(forgetSsid := "", connecting := true, waiting := false, busy := true, connectSsid := ssid)
  }

  function Freed(s: State): State {
    if s.job.Running? then s.(job := Idle) else s
  }

  /** What printing a C string into its own buffer leaves there. The language does not define it; glibc
      and musl store the terminator before they read the argument. */
  function SelfCopied(s: string): (r: string)
    ensures |r| <= |s|
  {
    ""
  }

  /** A join once its name is in the buffer for it; `ok` tells whether its process starts. */
  function JoinAs(s: State, name: string, pass: string, ok: bool): State {
    var b := BeginJoin(s, name);
    if IsJoin(s.job) then
      if KeepPendingPsk(pass == "", s.wantConnect, s.pendSsid, s.pendPass, name) then b
      else Queued(b, name, pass)
    else
      var free := Freed(b);
      if ok then Started(free, Connect, name, pass).(stuck := false) else free.(stuck := true)
  }

  /** The join of a network whose name is stored elsewhere. */
  function Join(s: State, ssid: string, pass: string, ok: bool): State {
    if ssid == "" then s else JoinAs(s, ssid, pass, ok)
  }

  /** The join of the network joined last, by the very buffer its name is then copied to. */
  function Rejoin(s: State, pass: string, ok: bool): State {
    if s.connectSsid == "" then s else JoinAs(s, SelfCopied(s.connectSsid), pass, ok)
  }

  function Remembered(s: State, ssid: string, password: string): State {
    s.(needPass := true, knownSsid := ssid, knownPsk := password)
  }

  function Queued(s: State, ssid: string, password: string): State {
    s.(pendSsid := ssid, pendPass := password, wantConnect := true)
  }

  /** A password typed while a join is under way waits for its end. It is for the network joined last,
      if there is one, and otherwise for the one selected. */
  function SubmitPass(s: State, password: string, enterprise: bool, ok: bool): State {
    var ssid := PassSsid(s.connectSsid, s.selectedSsid);
    if ssid == "" || s.forgetting || enterprise || |password| < MIN_PASSWORD then s
    else if s.connecting then Queued(Remembered(s, ssid, password), ssid, password)
    else if s.connectSsid != "" then Rejoin(Remembered(s, ssid, password), password, ok)
    else Join(Remembered(s, ssid, password), s.selectedSsid, password, ok)
  }

  /** The network is out of sight at once: queued work, a running process and the window go. */
  function Forgotten(s: State, ssid: string): State {
    var drops := SsidEq(s.live, ssid);
    s.(waiting := false, connecting := false, busy := false, stuck := false, forgetting := false,
       wantConnect := false, wantScan := false, wantInfo := false, wantLink := false,
       forgetSsid := ssid, aps := MarkInactive(s.aps, ssid), job := Idle,
       connected := s.connected && !drops, live := if drops then "" else s.live)
  }

  function ForgetNetwork(s: State, ssid: string, ok: bool): State {
    if ssid == "" || !ForgetCanStart(s.job.Running?, IsForget(s.job)) then s
    else if ok then Started(Forgotten(s, ssid).(forgetting := true), Forget, ssid, "")
    else Forgotten(s, ssid)
  }

  function UsingPass(s: State, used: bool): State {
    s.(needPass := used)
  }

  function JoinPicked(s: State, enterprise: bool, ok: bool): State {
    var ssid := s.selectedSsid;
    if ssid == "" || s.connecting || s.forgetting || IsCurrent(s, ssid) || enterprise then s
    else if UseSessionPsk(ssid, s.knownSsid, s.knownPsk) then Join(UsingPass(s, true), ssid, s.knownPsk, ok)
    else Join(UsingPass(s, false), ssid, "", ok)
  }

  /** Starts a process if none is running; otherwise the wish for it is kept. */
  function TryStart(s: State, kind: Kind, ok: bool, wish: State): State {
    if s.job.Idle? && ok then Started(s, kind, "", "") else wish
  }

  function StartScan(s: State, ok: bool): State {
    TryStart(s, Scan, ok, s.(wantScan := true))
  }

  function StartInfo(s: State, ok: bool): State {
    TryStart(s, Info, ok, s.(wantInfo := true))
  }

  function StartRadio(s: State, ok: bool): State {
    TryStart(s, Radio, ok, s.(wantInfo := true))
  }

  function StartLink(s: State, ok: bool): State {
    TryStart(s, Link, ok, s.(wantLink := true))
  }

  /** Runs one wish, a scan before the link before the device. */
  function RunWish(s: State, ok: bool): State {
    if s.wantScan then StartScan(s.(wantScan := false), ok)
    else if s.wantLink then StartLink(s.(wantLink := false), ok)
    else if s.wantInfo then StartInfo(s.(wantInfo := false), ok)
    else s
  }

  function JoinQueued(s: State, ok: bool): State {
    Join(s.(wantConnect := false), s.pendSsid, s.pendPass, ok)
  }

  /** Runs queued work once no process is running, a queued join first. */
  function Kick(s: State, ok: bool): State {
    if s.job.Running? then s
    else if s.wantConnect then JoinQueued(s, ok)
    else if s.screenOff then s
    else RunWish(s, ok)
  }

  function Closed(s: State): State {
    s.(waiting := false, connecting := false, busy := false)
  }

  /** The network asked for is there: its rows show it, and the sheet has done its work. */
  function Arrived(s: State): State {
    s.(aps := MarkActive(s.aps, s.connectSsid), sheet := NoSheet, wantScan := true)
  }

  function Missed(s: State): State {
    s.(sheet := if s.sheet.NoSheet? then Detail else s.sheet)
  }

  function Confirm(s: State, timedOut: bool): State {
    if !s.waiting || s.connectSsid == "" then s
    else if AlreadyOn(s.connected, s.live, s.connectSsid) then Arrived(Closed(s))
    else if !timedOut then s
    else Missed(Closed(s))
  }

  // ---------------------------------------------------------------- a process ends

  /** What a finished process reported. */
  datatype Exit =
    | RadioDone
    | InfoDone(sawWifi: bool, up: bool, isBusy: bool)
    | ScanDone(found: seq<Ap>)
    | ConnectDone(rc: int, out: string)
    | LinkDone(names: seq<string>)
    | ForgetDone(failed: bool)

  function KindOf(x: Exit): Kind {
    match x
    case RadioDone => Radio
    case InfoDone(_, _, _) => Info
    case ScanDone(_) => Scan
    case ConnectDone(_, _) => Connect
    case LinkDone(_) => Link
    case ForgetDone(_) => Forget
  }

  function Reported(s: State, up: bool, isBusy: bool): State {
    s.(connected := up, busy := isBusy)
  }

  function Disowned(s: State): State {
    s.(connected := false, busy := false, live := "")
  }

  function Released(s: State): State {
    s.(forgetSsid := "")
  }

  function TakeInfo(s: State, sawWifi: bool, up: bool, isBusy: bool): State {
    if !sawWifi then s
    else if ForgetHolds(s.forgetSsid, up, s.live) then Disowned(Reported(s, up, isBusy))
    else if !up && !isBusy then Released(Reported(s, up, isBusy))
    else Reported(s, up, isBusy)
  }

  function TakeScan(s: State, found: seq<Ap>): State {
    ApplyActive(s.(aps := Held(found, s.forgetSsid)))
  }

  function TakeLink(s: State, names: seq<string>): State
    decreases |names|
  {
    if names == [] then s else TakeLink(ApplySsid(s, names[0]), names[1..])
  }

  function Report(s: State, rc: int, out: string): Finished {
    Finished(rc, out, s.connected, s.live, s.connectSsid, s.sheet.NoSheet?, s.wantConnect, s.pendSsid,
             s.pendPass != "", s.needPass, UseSessionPsk(s.connectSsid, s.knownSsid, s.knownPsk))
  }

  function JoinOver(s: State): State {
    s.(connecting := false, busy := false)
  }

  function ShowPass(s: State): State {
    s.(selectedSsid := if s.connectSsid != "" then s.connectSsid else s.selectedSsid, sheet := Pass)
  }

  function ForgetPsk(s: State, ssid: string): State {
    if SsidEq(s.knownSsid, ssid) then s.(knownSsid := "", knownPsk := "") else s
  }

  /** The confirm window; a password still queued for the network just joined is dropped. */
  function OpenWindow(s: State): State {
    s.(waiting := true, connecting := true, busy := true,
       wantConnect := s.wantConnect && !DropPending(s.connectSsid, s.pendSsid),
       sheet := if s.sheet.Pass? then Detail else s.sheet, wantInfo := true, wantLink := true)
  }

  function DropEmptyProbe(s: State): State {
    s.(wantConnect := s.wantConnect && !(SsidEq(s.pendSsid, s.connectSsid) && s.pendPass == ""))
  }

  function ShowFailure(s: State): State {
    s.(sheet := if s.sheet.NoSheet? then NoSheet else if s.needPass then Pass else Detail)
  }

  function TakeJoin(s: State, rc: int, out: string, ok: bool): State {
    match OnConnectJob(Report(s, rc, out))
    case Success => Confirm(OpenWindow(JoinOver(s)), false)
    case RetryPsk => Rejoin(DropEmptyProbe(JoinOver(s)), s.knownPsk, ok)
    case WrongPass => ShowPass(ForgetPsk(JoinOver(s), s.connectSsid))
    case OpenPass => ShowPass(JoinOver(s))
    case WaitPending => JoinOver(s)
    case Fail => ShowFailure(JoinOver(s))
  }

  predicate DropsLive(s: State) {
    SsidEq(s.live, s.selectedSsid) || SsidEq(s.live, s.forgetSsid) || ForgetHolds(s.forgetSsid, true, s.live)
  }

  function LiveDropped(s: State): State {
    if DropsLive(s) then s.(connected := false, live := "") else s
  }

  function Gone(s: State): string {
    if s.forgetSsid != "" then s.forgetSsid else s.selectedSsid
  }

  function Unlisted(s: State): State {
    s.(forgetting := false, aps := MarkInactive(s.aps, Gone(s)))
  }

  function Listed(s: State): State {
    s.(sheet := List, wantInfo := true, wantScan := true)
  }

  function TakeForget(s: State, failed: bool): State {
    if failed then s.(forgetting := false, sheet := Detail)
    else Listed(ForgetPsk(LiveDropped(Unlisted(s)), s.selectedSsid))
  }

  function LinkWanted(s: State): State {
    s.(wantLink := s.wantLink || s.connected || s.busy || s.waiting)
  }

  function EndInfo(s: State, timedOut: bool): State {
    Confirm(LinkWanted(s), timedOut)
  }

  function EndLink(s: State): State {
    s.(wantInfo := s.wantInfo || s.waiting)
  }

  function TakeExit(s: State, x: Exit, timedOut: bool, ok: bool): State {
    match x
    case RadioDone => s.(wantInfo := true, wantScan := true)
    case InfoDone(saw, up, isBusy) => EndInfo(TakeInfo(s, saw, up, isBusy), timedOut)
    case ScanDone(found) => Confirm(TakeScan(s, found), timedOut)
    case LinkDone(names) => EndLink(Confirm(TakeLink(s, names), timedOut))
    case ConnectDone(rc, out) => TakeJoin(s, rc, out, ok)
    case ForgetDone(failed) => TakeForget(s, failed)
  }

  /** A process ends: its slot is free before its report is taken and queued work runs. */
  function PollJob(s: State, x: Exit, timedOut: bool, ok: bool, okNext: bool): State {
    if s.job.Running? && s.job.kind == KindOf(x) then
      Kick(TakeExit(s.(job := Idle), x, timedOut, ok), okNext)
    else s
  }

  // ---------------------------------------------------------------- runs

  datatype Event =
    | JoinTapped(enterprise: bool, ok: bool)
    | PasswordSubmitted(password: string, enterprise: bool, ok: bool)
    | ForgetTapped(ok: bool)
    | RowSelected(row: nat)
    | ScanRequested(ok: bool)
    | InfoRequested(ok: bool)
    | RadioRequested(ok: bool)
    | Kicked(ok: bool)
    | ConfirmChecked(timedOut: bool)
    | SignalSampled
    | SheetChanged(sheet: Sheet)
    | ScreenChanged(off: bool)
    | JobEnded(report: Exit, timedOut: bool, ok: bool, okNext: bool)

  function Step(s: State, e: Event): State {
    match e
    case JoinTapped(enterprise, ok) => JoinPicked(s, enterprise, ok)
    case PasswordSubmitted(password, enterprise, ok) => SubmitPass(s, password, enterprise, ok)
    case ForgetTapped(ok) => ForgetNetwork(s, s.selectedSsid, ok)
    case RowSelected(row) => if row < |s.aps| then s.(selectedSsid := s.aps[row].ssid) else s
    case ScanRequested(ok) => StartScan(s, ok)
    case InfoRequested(ok) => StartInfo(s, ok)
    case RadioRequested(ok) => StartRadio(s, ok)
    case Kicked(ok) => Kick(s, ok)
    case ConfirmChecked(timedOut) => Confirm(s, timedOut)
    case SignalSampled => ApplyActive(s)
    case SheetChanged(sheet) => s.(sheet := sheet)
    case ScreenChanged(off) => s.(screenOff := off)
    case JobEnded(report, timedOut, ok, okNext) => PollJob(s, report, timedOut, ok, okNext)
  }

  function Run(s: State, events: seq<Event>): State {
    if events == [] then s else Step(Run(s, events[..|events| - 1]), events[|events| - 1])
  }
}
