/** The Wi-Fi HUD's decisions, as functions of what they look at: no state, no effects. */
module WifiFlow {

  datatype Action = Success | OpenPass | WrongPass | RetryPsk | WaitPending | Fail

  datatype Finished = Finished(
    rc: int,
    out: string,
    connected: bool,
    live: string,
    want: string,            // the SSID the job was joining
    leftHome: bool,
    wantConnect: bool,
    pendSsid: string,
    pendHasPass: bool,
    usedPass: bool,
    haveSessionPsk: bool
  )

  predicate OccursAt(s: string, t: string, i: nat) {
    i + |t| <= |s| && s[i..i + |t|] == t
  }

  predicate Contains(s: string, t: string) {
    exists i: nat | i <= |s| :: OccursAt(s, t, i)
  }

  /** A string without the first character of another one cannot contain it. */
  lemma LacksFirst(s: string, t: string)
    requires t != ""
    ensures t[0] !in s ==> !Contains(s, t)
  {
    if Contains(s, t) {
      var i: nat :| i <= |s| && OccursAt(s, t, i);
      assert s[i] == s[i..i + |t|][0];
    }
  }

  predicate SsidEq(a: string, b: string) {
    a != "" && a == b
  }

  predicate AlreadyOn(connected: bool, live: string, want: string) {
    connected && SsidEq(live, want)
  }

  predicate ConfirmFails(timedOut: bool, connected: bool, live: string, want: string) {
    timedOut && !AlreadyOn(connected, live, want)
  }

  /** A connection reported after a forget is held back unless it names another network. */
  predicate ForgetHolds(forgotten: string, up: bool, live: string) {
    forgotten != "" && up && (live == "" || SsidEq(forgotten, live))
  }

  predicate ForgetCanStart(jobRunning: bool, jobIsForget: bool) {
    !(jobRunning && jobIsForget)
  }

  predicate DropPending(done: string, pend: string) {
    SsidEq(done, pend)
  }

  predicate JobOk(rc: int, out: string) {
    rc == 0 || Contains(out, "已连接")
  }

  predicate NeedPw(rc: int, out: string) {
    !JobOk(rc, out) && rc != 3 && (rc == 2 || Contains(out, "NEED_PASSWORD"))
  }

  predicate WrongPw(rc: int, out: string) {
    && !JobOk(rc, out)
    && (rc == 3 || Contains(out, "密码不对") || Contains(out, "WRONG_PASSWORD") || Contains(out, "psk mismatch"))
  }

  predicate OpensPass(needPw: bool, alreadyOn: bool, leftHome: bool) {
    needPw && !alreadyOn && !leftHome
  }

  /** A queued password is not replaced by an empty probe for the same network. */
  predicate KeepPendingPsk(queuingEmpty: bool, wantConnect: bool, pendSsid: string, pendPass: string, ssid: string) {
    queuingEmpty && wantConnect && pendPass != "" && SsidEq(pendSsid, ssid)
  }

  function PassSsid(connectSsid: string, selectedSsid: string): string {
    if connectSsid != "" then connectSsid else selectedSsid
  }

  predicate UseSessionPsk(ssid: string, knownSsid: string, knownPsk: string) {
    SsidEq(ssid, knownSsid) && knownPsk != ""
  }

  function OnConnectJob(f: Finished): Action {
    var already := AlreadyOn(f.connected, f.live, f.want);
    var need, wrong := NeedPw(f.rc, f.out), WrongPw(f.rc, f.out);
    var pending := f.wantConnect && f.pendHasPass && SsidEq(f.pendSsid, f.want);
    if JobOk(f.rc, f.out) || ((need || wrong) && already) then Success
    else if (need || wrong) && pending then WaitPending
    else if need && !wrong && !f.usedPass && f.haveSessionPsk then RetryPsk
    else if wrong || (f.usedPass && need) then WrongPass
    else if OpensPass(need, already, f.leftHome) then OpenPass
    else Fail
  }
}
