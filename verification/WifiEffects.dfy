/** What each Wi-Fi handler means for the rest of the HUD: what it may change, when it refuses, and
    what it leaves running or queued. */
module WifiEffects {
  import opened Common
  import opened WifiFlow
  import opened WifiState
  import opened WifiRuns

  // ---------------------------------------------------------------- names

  /** A name is short for another one that has a suffix set off by a dash or an underscore. */
  lemma SiblingHasSuffix(short: string, long: string)
    ensures Sibling(short, long) <==>
              exists suffix :: suffix != "" && (suffix[0] == '-' || suffix[0] == '_') && long == short + suffix
  {
    if Sibling(short, long) {
      assert long == short + long[|short|..];
    }
  }

  lemma {:induction false} CutAt(s: string, t: string, end: char)
    requires end !in s && (t != "" ==> t[0] == end)
    ensures UpTo(s + t, end) == s
  {
    if s == "" {
      assert s + t == t;
    } else {
      CutAt(s[1..], t, end);
      assert (s + t)[1..] == s[1..] + t;
    }
  }

  lemma {:induction false} CutWithin(s: string, t: string, end: char)
    requires end !in s
    ensures UpTo(s + t, end) == s + UpTo(t, end)
  {
    if s == "" {
      assert s + t == t;
    } else {
      CutWithin(s[1..], t, end);
      assert (s + t)[1..] == s[1..] + t;
    }
  }

  /** A line ends with its first line feed or carriage return. */
  lemma LineCut(name: string, tail: string)
    requires '\n' !in name && '\r' !in name && (tail != "" ==> tail[0] == '\n' || tail[0] == '\r')
    ensures UpTo(UpTo(name + tail, '\n'), '\r') == name
  {
    CutWithin(name, tail, '\n');
    CutAt(name, UpTo(tail, '\n'), '\r');
  }

  predicate Blank(s: string) {
    forall i :: 0 <= i < |s| ==> s[i] == ' ' || s[i] == '\t'
  }

  lemma {:induction false} BlanksSkipped(blanks: string, s: string)
    requires Blank(blanks) && (s != "" ==> s[0] != ' ' && s[0] != '\t')
    ensures SkipBlanks(blanks + s) == s
  {
    if blanks == "" {
      assert blanks + s == s;
    } else {
      BlanksSkipped(blanks[1..], s);
      assert (blanks + s)[1..] == blanks[1..] + s;
    }
  }

  /** The name in a report: between leading blanks and the end of the line, and without the prefix of a
      profile of the HUD's own, unless the prefix is all there is. */
  lemma NameWithin(blanks: string, name: string, tail: string, own: bool)
    requires Blank(blanks)
    requires '\n' !in name && '\r' !in name && (tail != "" ==> tail[0] == '\n' || tail[0] == '\r')
    requires name + tail != ""
    requires own || (name != "" ==> name[0] != ' ' && name[0] != '\t')
    requires own || !("gemini-" <= name && name + tail != "gemini-")
    ensures NameIn(blanks + (if own then "gemini-" else "") + name + tail) == name
    ensures CarriesName(blanks + (if own then "gemini-" else "") + name + tail) <==> own || name + tail != "--"
  {
    var prefix := if own then "gemini-" else "";
    var s := prefix + (name + tail);
    assert blanks + prefix + name + tail == blanks + s;
    BlanksSkipped(blanks, s);
    if own {
      assert s[..7] == "gemini-" && s[7..] == name + tail;
      assert s[0] == 'g';
      LineCut(name, tail);
    } else {
      assert s == name + tail;
      if |s| > 7 && s[..7] == "gemini-" {
        assert |name| < 7;
        assert s[|name|] == tail[0] == s[..7][|name|];
      }
      LineCut(name, tail);
    }
  }

  // ---------------------------------------------------------------- what a name changes

  /** The name in a report is a sibling of the network being joined. */
  predicate SiblingOfJoined(joined: string, name: string) {
    joined != "" && name != joined && (Sibling(name, joined) || Sibling(joined, name))
  }

  /** A report carries the name of another network, one that is no sibling of the one being joined. */
  predicate EndsHold(forgotten: string, joined: string, raw: string) {
    CarriesName(raw) && NameIn(raw) != "" && NameIn(raw) != forgotten && !SiblingOfJoined(joined, NameIn(raw))
  }

  predicate OnlyName(s: State, r: State) {
    r == s.(live := r.live, forgetSsid := r.forgetSsid)
  }

  /** A name is taken unless it is a sibling of the one being joined, or the held-back one. */
  predicate Takes(s: State, raw: string) {
    && CarriesName(raw) && !SiblingOfJoined(s.connectSsid, NameIn(raw))
    && !(s.forgetSsid != "" && NameIn(raw) == s.forgetSsid)
  }

  /** A name touches only the live network and the hold. One that is taken becomes live, unless it is
      short for the live one. The held-back network never becomes live;
      the hold ends exactly when another network is named that is no sibling of the one being joined. */
  predicate NameTaken(s: State, r: State, raw: string) {
    && OnlyName(s, r)
    && r.live == (if Takes(s, raw) && !Sibling(NameIn(raw), s.live) then NameIn(raw) else s.live)
    && (s.forgetSsid != "" ==> r.live != s.forgetSsid)
    && (s.forgetSsid != "" ==> (r.forgetSsid == "" <==> EndsHold(s.forgetSsid, s.connectSsid, raw)))
    && (r.forgetSsid != "" ==> r.forgetSsid == s.forgetSsid)
  }

  lemma IgnoredName(s: State, raw: string, n: nat)
    requires Good(s, n) && (!CarriesName(raw) || NameIgnored(s, NameIn(raw)))
    ensures NameTaken(s, ApplySsid(s, raw), raw)
  {
    hide NameIn, CarriesName, Sibling, OneMode, WithinBudget, ProbeAnswered;
  }

  lemma NewName(s: State, raw: string, n: nat)
    requires Good(s, n) && CarriesName(raw) && !NameIgnored(s, NameIn(raw))
    ensures NameTaken(s, ApplySsid(s, raw), raw)
  {
    hide NameIn, CarriesName, Sibling, OneMode, WithinBudget, ProbeAnswered;
    var name := NameIn(raw);
    var live, hold := if Sibling(name, s.live) then s.live else name, if name != "" then "" else s.forgetSsid;
    assert ApplySsid(s, raw) == s.(forgetSsid := hold, live := live);
  }

  lemma NameEffect(s: State, raw: string, n: nat)
    requires Good(s, n)
    ensures NameTaken(s, ApplySsid(s, raw), raw)
  {
    hide Good, NameTaken, NameIn, CarriesName, NameIgnored, ApplySsid;
    if CarriesName(raw) && !NameIgnored(s, NameIn(raw)) {
      NewName(s, raw, n);
    } else {
      IgnoredName(s, raw, n);
    }
  }

  /** A row of the list is in use: it says so, or it is the live network. */
  predicate RowInUse(live: string, ap: Ap) {
    ap.active || (live != "" && ap.ssid == live)
  }

  predicate LiveFromRow(live: string, aps: seq<Ap>, name: string) {
    exists i :: 0 <= i < |aps| && RowInUse(live, aps[i]) && NameIn(aps[i].ssid) == name
  }

  /** A row claims to be the network in use. */
  predicate Claims(s: State, i: nat) {
    && i < |s.aps| && RowInUse(s.live, s.aps[i])
    && !(s.forgetSsid != "" && s.aps[i].ssid == s.forgetSsid)
  }

  ghost predicate FirstClaims(s: State, i: nat) {
    Claims(s, i) && forall j: nat :: j < i ==> !Claims(s, j)
  }

  lemma {:induction false} FirstInUseClaims(s: State, i: nat)
    ensures var r := FirstInUse(s.aps, s.live, s.forgetSsid, i);
            && (r < |s.aps| ==> Claims(s, r)) && forall j: nat :: i <= j < r ==> !Claims(s, j)
    decreases |s.aps| - i
  {
    if i < |s.aps| {
      FirstInUseClaims(s, i + 1);
    }
  }

  /** The first row that claims to be in use, but for the held-back network's, names the live one; if
      there is none, or it has no name, nothing changes. */
  ghost predicate FirstRowTaken(s: State, r: State) {
    && ((forall i: nat :: !Claims(s, i)) ==> r == s)
    && (forall i: nat :: FirstClaims(s, i) ==> if s.aps[i].ssid == "" then r == s else NameTaken(s, r, s.aps[i].ssid))
  }

  lemma FirstRowEffect(s: State, n: nat)
    requires Good(s, n)
    ensures FirstRowTaken(s, ApplyActive(s))
  {
    hide Good, NameTaken, ApplySsid, Claims;
    var k := FirstInUse(s.aps, s.live, s.forgetSsid, 0);
    FirstInUseClaims(s, 0);
    if k < |s.aps| {
      assert Claims(s, k);
      forall i: nat | FirstClaims(s, i) ensures i == k {
        assert i < k ==> !Claims(s, i);
      }
      if s.aps[k].ssid != "" {
        NameEffect(s, s.aps[k].ssid, n);
      }
    } else {
      forall i: nat ensures !Claims(s, i) {
        NoClaimPast(s, i);
      }
    }
  }

  lemma NoClaimPast(s: State, i: nat)
    ensures Claims(s, i) ==> i < |s.aps|
  {
  }

  /** Looking for the network in use touches only the live network and the hold: a new live name is
      that of a row in use, and the hold ends only with another network in use. */
  ghost predicate ActiveTaken(s: State, r: State) {
    && OnlyName(s, r) && FirstRowTaken(s, r)
    && (r.live != s.live ==> LiveFromRow(s.live, s.aps, r.live))
    && (s.forgetSsid != "" ==> r.live != s.forgetSsid)
    && (s.forgetSsid != "" && r.forgetSsid == "" ==> NamedInUse(s, s.aps))
    && (r.forgetSsid != "" ==> r.forgetSsid == s.forgetSsid)
  }

  lemma NameFromRow(s: State, i: nat, n: nat)
    requires Good(s, n) && i < |s.aps| && RowInUse(s.live, s.aps[i])
    ensures var r := ApplySsid(s, s.aps[i].ssid);
            && OnlyName(s, r) && (r.live != s.live ==> LiveFromRow(s.live, s.aps, r.live))
            && (s.forgetSsid != "" ==> r.live != s.forgetSsid)
            && (r.forgetSsid != "" ==> r.forgetSsid == s.forgetSsid)
  {
    hide Good, ApplySsid, NameIn, CarriesName, SiblingOfJoined, EndsHold, OnlyName;
    NameEffect(s, s.aps[i].ssid, n);
  }

  lemma NothingInUse(s: State, n: nat)
    requires Good(s, n) && FirstRowTaken(s, s)
    ensures ActiveTaken(s, s)
  {
    hide NamedInUse, LiveFromRow, FirstRowTaken;
  }

  lemma RowTaken(s: State, i: nat, n: nat)
    requires Good(s, n) && i < |s.aps| && ApplyActive(s) == ApplySsid(s, s.aps[i].ssid)
    requires RowInUse(s.live, s.aps[i])
    ensures ActiveTaken(s, ApplyActive(s))
  {
    hide ApplySsid, ApplyActive, Good, NamedInUse, LiveFromRow, OnlyName, FirstRowTaken;
    NameFromRow(s, i, n);
    FirstRowEffect(s, n);
    if s.forgetSsid != "" && ApplyActive(s).forgetSsid != s.forgetSsid {
      ActiveReleases(s);
    }
  }

  lemma ActiveEffect(s: State, n: nat)
    requires Good(s, n)
    ensures ActiveTaken(s, ApplyActive(s))
  {
    hide ApplySsid, Good, ActiveTaken, FirstRowTaken;
    var i := FirstInUse(s.aps, s.live, s.forgetSsid, 0);
    if i < |s.aps| && s.aps[i].ssid != "" {
      RowTaken(s, i, n);
    } else {
      FirstRowEffect(s, n);
      NothingInUse(s, n);
    }
  }

  /** The rows a scan found, name by name, marked exactly where it marked them but for the held-back
      network. */
  predicate RowsTaken(forgotten: string, aps: seq<Ap>, found: seq<Ap>) {
    |aps| == |found| && forall i :: 0 <= i < |found| ==>
      aps[i].ssid == found[i].ssid
      && (aps[i].active <==> found[i].active && !(forgotten != "" && found[i].ssid == forgotten))
  }

  /** A scan replaces the rows, and then the network in use is looked for among them. */
  ghost predicate ScanTaken(s: State, r: State, found: seq<Ap>) {
    && RowsTaken(s.forgetSsid, r.aps, found) && ActiveTaken(s.(aps := r.aps), r)
    && (s.forgetSsid != "" && r.forgetSsid == "" ==> NamedInUse(s, found))
  }

  lemma RowsHeldBack(forgotten: string, found: seq<Ap>)
    ensures RowsTaken(forgotten, Held(found, forgotten), found)
  {
  }

  lemma ScanEffect(s: State, found: seq<Ap>, n: nat)
    requires Good(s, n)
    ensures ScanTaken(s, TakeScan(s, found), found)
  {
    hide Good, ApplyActive, NamedInUse, LiveFromRow, Held, RowsTaken;
    var t := s.(aps := Held(found, s.forgetSsid));
    HeldKeeps(s, found, n);
    ActiveEffect(t, n);
    RowsHeldBack(s.forgetSsid, found);
    if s.forgetSsid != "" && TakeScan(s, found).forgetSsid == "" {
      ScanReleases(s, found);
    }
  }

  predicate SomeEndsHold(forgotten: string, joined: string, names: seq<string>) {
    exists k :: 0 <= k < |names| && EndsHold(forgotten, joined, names[k])
  }

  predicate LiveFromName(names: seq<string>, name: string) {
    exists k :: 0 <= k < |names| && CarriesName(names[k]) && NameIn(names[k]) == name
  }

  /** The names are taken one after the other. */
  ghost predicate InOrder(s: State, r: State, names: seq<string>)
    decreases |names|
  {
    if names == [] then r == s
    else exists t :: NameTaken(s, t, names[0]) && InOrder(t, r, names[1..])
  }

  /** A link report takes the names it carries in order, and with them touches only the live network and
      the hold: a new live name is one it carries, and
      the hold ends exactly if it names another network that is no sibling of the one being joined. */
  ghost predicate LinkTaken(s: State, r: State, names: seq<string>) {
    && OnlyName(s, r) && InOrder(s, r, names)
    && (r.live != s.live ==> LiveFromName(names, r.live))
    && (s.forgetSsid != "" ==> (r.forgetSsid == "" <==> SomeEndsHold(s.forgetSsid, s.connectSsid, names)))
    && (r.forgetSsid != "" ==> r.forgetSsid == s.forgetSsid && r.live != r.forgetSsid)
  }

  lemma NamesSplit(forgotten: string, joined: string, names: seq<string>)
    requires names != []
    ensures SomeEndsHold(forgotten, joined, names) <==>
              EndsHold(forgotten, joined, names[0]) || SomeEndsHold(forgotten, joined, names[1..])
  {
    hide EndsHold;
    if SomeEndsHold(forgotten, joined, names[1..]) {
      var k :| 0 <= k < |names[1..]| && EndsHold(forgotten, joined, names[1..][k]);
      assert EndsHold(forgotten, joined, names[k + 1]);
    }
  }

  lemma LiveSplit(names: seq<string>, name: string)
    requires names != []
    ensures LiveFromName(names, name) <==>
              (CarriesName(names[0]) && NameIn(names[0]) == name) || LiveFromName(names[1..], name)
  {
    hide CarriesName, NameIn;
    if LiveFromName(names[1..], name) {
      var k :| 0 <= k < |names[1..]| && CarriesName(names[1..][k]) && NameIn(names[1..][k]) == name;
      assert CarriesName(names[k + 1]) && NameIn(names[k + 1]) == name;
    }
  }

  lemma OnlyNameChains(s: State, t: State, r: State)
    requires OnlyName(s, t) && OnlyName(t, r)
    ensures OnlyName(s, r) && t.connectSsid == s.connectSsid
  {
  }

  lemma LinkChains(s: State, t: State, r: State, names: seq<string>)
    requires names != [] && NameTaken(s, t, names[0]) && LinkTaken(t, r, names[1..])
    ensures LinkTaken(s, r, names)
  {
    hide CarriesName, NameIn, SiblingOfJoined, EndsHold, OnlyName, SomeEndsHold, LiveFromName;
    OnlyNameChains(s, t, r);
    LiveSplit(names, r.live);
    NamesSplit(s.forgetSsid, s.connectSsid, names);
  }

  lemma NoNames(s: State, n: nat)
    requires Good(s, n)
    ensures LinkTaken(s, s, [])
  {
  }

  lemma {:induction false} LinkEffect(s: State, names: seq<string>, n: nat)
    requires Good(s, n)
    ensures LinkTaken(s, TakeLink(s, names), names)
    decreases |names|
  {
    hide Good, ApplySsid, NameTaken, LinkTaken;
    if names == [] {
      NoNames(s, n);
    } else {
      NameEffect(s, names[0], n);
      NameKeeps(s, names[0], n);
      LinkEffect(ApplySsid(s, names[0]), names[1..], n);
      LinkChains(s, ApplySsid(s, names[0]), TakeLink(s, names), names);
    }
  }

  // ---------------------------------------------------------------- what a handler leaves alone

  predicate SameJob(s: State, r: State) {
    r.job == s.job && r.joinsStarted == s.joinsStarted && r.stuck == s.stuck
  }

  predicate SameMode(s: State, r: State) {
    && r.connecting == s.connecting && r.forgetting == s.forgetting && r.waiting == s.waiting && r.busy == s.busy
    && r.connectSsid == s.connectSsid
  }

  predicate SameQueue(s: State, r: State) {
    r.wantConnect == s.wantConnect && r.pendSsid == s.pendSsid && r.pendPass == s.pendPass
  }

  predicate SameWishes(s: State, r: State) {
    r.wantScan == s.wantScan && r.wantInfo == s.wantInfo && r.wantLink == s.wantLink
  }

  predicate SamePass(s: State, r: State) {
    r.needPass == s.needPass && r.knownSsid == s.knownSsid && r.knownPsk == s.knownPsk
  }

  predicate SameView(s: State, r: State) {
    r.selectedSsid == s.selectedSsid && r.sheet == s.sheet && r.screenOff == s.screenOff
  }

  predicate SameNet(s: State, r: State) {
    r.connected == s.connected && r.live == s.live && r.aps == s.aps
  }

  // ---------------------------------------------------------------- the current network

  /** The first row of that name is in use. */
  predicate ListedInUse(aps: seq<Ap>, ssid: string) {
    exists i :: 0 <= i < |aps| && aps[i].ssid == ssid && aps[i].active && forall j :: 0 <= j < i ==> aps[j].ssid != ssid
  }

  lemma {:induction false} FindIsFirst(aps: seq<Ap>, ssid: string, i: nat)
    requires ssid != ""
    ensures var r := Find(aps, ssid, i);
            && (r < |aps| ==> i <= r && aps[r].ssid == ssid)
            && forall j :: i <= j < r && j < |aps| ==> aps[j].ssid != ssid
    decreases |aps| - i
  {
    if i < |aps| && aps[i].ssid != ssid {
      FindIsFirst(aps, ssid, i + 1);
    }
  }

  /** A network is current if the HUD is connected and it is the live one or listed in use, and it is not
      held back. */
  lemma CurrentMeans(s: State, ssid: string)
    ensures IsCurrent(s, ssid) <==>
              ssid != "" && ssid != s.forgetSsid && s.connected && (s.live == ssid || ListedInUse(s.aps, ssid))
  {
    if ssid != "" {
      FindIsFirst(s.aps, ssid, 0);
      var r := Find(s.aps, ssid, 0);
      if ListedInUse(s.aps, ssid) {
        var i :| 0 <= i < |s.aps| && s.aps[i].ssid == ssid && s.aps[i].active
                 && forall j :: 0 <= j < i ==> s.aps[j].ssid != ssid;
        assert i == r;
      }
    }
  }

  // ---------------------------------------------------------------- joining

  /** A join shows at once and leaves the present connection up. */
  predicate JoinShown(s: State, r: State, ssid: string) {
    && r.connecting && r.connectSsid == ssid && !r.waiting && r.busy && r.forgetSsid == ""
    && r.forgetting == s.forgetting
    && SameNet(s, r) && SameView(s, r) && SamePass(s, r) && SameWishes(s, r)
  }

  /** Behind a join that is already running, the new request is queued; a password queued for the
      network is not displaced by an empty probe. */
  predicate JoinWaits(s: State, r: State, ssid: string, pass: string) {
    var kept := pass == "" && s.wantConnect && s.pendSsid == ssid != "" && s.pendPass != "";
    && SameJob(s, r) && r.wantConnect && r.pendSsid == ssid
    && r.pendPass == if kept then s.pendPass else pass
  }

  /** Otherwise it gets its own process, in place of whatever else ran. */
  predicate JoinRuns(s: State, r: State, ssid: string, pass: string, ok: bool) {
    && r.job == (if ok then Running(Connect, ssid, pass) else Idle) && r.stuck == !ok
    && r.joinsStarted == s.joinsStarted + One(ok) && SameQueue(s, r)
  }

  predicate JoinBegun(s: State, r: State, ssid: string, pass: string, ok: bool) {
    JoinShown(s, r, ssid) && if IsJoin(s.job) then JoinWaits(s, r, ssid, pass) else JoinRuns(s, r, ssid, pass, ok)
  }

  lemma ShownAtOnce(s: State, ssid: string)
    ensures JoinShown(s, BeginJoin(s, ssid), ssid)
  {
  }

  lemma QueuedShows(s: State, b: State, ssid: string, pass: string)
    requires JoinShown(s, b, ssid)
    ensures JoinShown(s, Queued(b, ssid, pass), ssid)
  {
  }

  lemma FreedShows(s: State, b: State, ssid: string)
    requires JoinShown(s, b, ssid)
    ensures JoinShown(s, Freed(b), ssid)
  {
    if b.job.Running? {
      assert Freed(b) == b.(job := Idle);
    } else {
      assert Freed(b) == b;
    }
  }

  lemma StartedShows(s: State, b: State, ssid: string, pass: string)
    requires JoinShown(s, b, ssid)
    ensures JoinShown(s, Started(b, Connect, ssid, pass).(stuck := false), ssid)
  {
  }

  lemma StuckShows(s: State, b: State, ssid: string)
    requires JoinShown(s, b, ssid)
    ensures JoinShown(s, b.(stuck := true), ssid)
  {
  }

  lemma JoinWaitsEffect(s: State, ssid: string, pass: string, ok: bool)
    requires IsJoin(s.job)
    ensures JoinBegun(s, JoinAs(s, ssid, pass, ok), ssid, pass, ok)
  {
    hide JoinShown;
    ShownAtOnce(s, ssid);
    QueuedShows(s, BeginJoin(s, ssid), ssid, pass);
  }

  lemma FreedCounts(b: State)
    ensures Freed(b).job.Idle? && Freed(b).joinsStarted == b.joinsStarted && SameQueue(b, Freed(b))
  {
    if b.job.Running? {
      assert Freed(b) == b.(job := Idle);
    } else {
      assert Freed(b) == b;
    }
  }

  lemma BegunCounts(s: State, ssid: string)
    ensures BeginJoin(s, ssid).joinsStarted == s.joinsStarted && SameQueue(s, BeginJoin(s, ssid))
    ensures BeginJoin(s, ssid).job == s.job
  {
  }

  lemma JoinStartsEffect(s: State, ssid: string, pass: string)
    requires !IsJoin(s.job)
    ensures JoinBegun(s, JoinAs(s, ssid, pass, true), ssid, pass, true)
  {
    hide JoinShown, BeginJoin, Freed;
    var b := BeginJoin(s, ssid);
    BegunCounts(s, ssid);
    FreedCounts(b);
    ShownAtOnce(s, ssid);
    FreedShows(s, b, ssid);
    StartedShows(s, Freed(b), ssid, pass);
  }

  lemma JoinFailsEffect(s: State, ssid: string, pass: string)
    requires !IsJoin(s.job)
    ensures JoinBegun(s, JoinAs(s, ssid, pass, false), ssid, pass, false)
  {
    hide JoinShown, BeginJoin, Freed;
    var b := BeginJoin(s, ssid);
    BegunCounts(s, ssid);
    FreedCounts(b);
    ShownAtOnce(s, ssid);
    FreedShows(s, b, ssid);
    StuckShows(s, Freed(b), ssid);
  }

  lemma JoinEffect(s: State, ssid: string, pass: string, ok: bool)
    ensures JoinBegun(s, JoinAs(s, ssid, pass, ok), ssid, pass, ok)
  {
    hide JoinBegun, JoinAs;
    if IsJoin(s.job) {
      JoinWaitsEffect(s, ssid, pass, ok);
    } else if ok {
      JoinStartsEffect(s, ssid, pass);
    } else {
      JoinFailsEffect(s, ssid, pass);
    }
  }

  function KnownNow(s: State, ssid: string, password: string): State {
    s.(needPass := true, knownSsid := ssid, knownPsk := password)
  }

  /** An accepted password is remembered for its network, and either waits for the join under way,
      which goes on untouched, or starts one: of its network if none was joined before, else of no
      network, because the name is printed into its own buffer. */
  predicate PasswordTaken(s: State, r: State, password: string, enterprise: bool, ok: bool) {
    var ssid := PassSsid(s.connectSsid, s.selectedSsid);
    var known := KnownNow(s, ssid, password);
    if !Accepts(s, password, enterprise) then r == s
    else if s.connecting then r == known.(wantConnect := true, pendSsid := ssid, pendPass := password)
    else JoinBegun(known, r, if s.connectSsid == "" then ssid else "", password, ok)
  }

  lemma SubmitEffect(s: State, password: string, enterprise: bool, ok: bool, n: nat)
    requires Good(s, n)
    ensures PasswordTaken(s, SubmitPass(s, password, enterprise, ok), password, enterprise, ok)
  {
    hide JoinAs, HeldBack, WithinBudget, ProbeAnswered, JoinBegun;
    var ssid := PassSsid(s.connectSsid, s.selectedSsid);
    if Accepts(s, password, enterprise) && !s.connecting {
      JoinEffect(Remembered(s, ssid, password), if s.connectSsid == "" then ssid else "", password, ok);
    }
  }

  /** A tap joins with the password known for the network, or probes without one if none is. */
  predicate TapTaken(s: State, r: State, enterprise: bool, ok: bool) {
    var pass := if s.selectedSsid == s.knownSsid then s.knownPsk else "";
    if s.selectedSsid == "" || s.connecting || s.forgetting || enterprise || IsCurrent(s, s.selectedSsid) then r == s
    else JoinBegun(s.(needPass := pass != ""), r, s.selectedSsid, pass, ok)
  }

  lemma TapEffect(s: State, enterprise: bool, ok: bool, n: nat)
    requires Good(s, n)
    ensures TapTaken(s, JoinPicked(s, enterprise, ok), enterprise, ok)
  {
    hide JoinAs, HeldBack, WithinBudget, ProbeAnswered, IsCurrent, JoinBegun;
    var known := UseSessionPsk(s.selectedSsid, s.knownSsid, s.knownPsk);
    if s.selectedSsid != "" && !s.connecting && !s.forgetting {
      JoinEffect(UsingPass(s, known), s.selectedSsid, if known then s.knownPsk else "", ok);
    }
  }

  // ---------------------------------------------------------------- forgetting

  /** Exactly the rows of one name, or all rows for none, are not in use any more. */
  predicate RowsGone(was: seq<Ap>, now: seq<Ap>, name: string) {
    |now| == |was| && forall i :: 0 <= i < |was| ==>
      now[i].ssid == was[i].ssid && (now[i].active <==> was[i].active && name != "" && was[i].ssid != name)
  }

  /** Forgetting takes the network out of sight and drops everything that could bring it back,
      whether or not its own process starts. A second one waits for the first. */
  predicate ForgetTaken(s: State, r: State, ssid: string, ok: bool) {
    if ssid == "" || IsForget(s.job) then r == s
    else
      && r.forgetSsid == ssid && r.live == (if s.live == ssid then "" else s.live)
      && r.connected == (s.connected && s.live != ssid) && RowsGone(s.aps, r.aps, ssid) && !IsCurrent(r, ssid)
      && !r.connecting && !r.waiting && !r.busy && !r.stuck && r.connectSsid == s.connectSsid
      && !r.wantConnect && !r.wantScan && !r.wantInfo && !r.wantLink
      && r.job == (if ok then Running(Forget, ssid, "") else Idle) && r.forgetting == ok
      && r.joinsStarted == s.joinsStarted && r.pendSsid == s.pendSsid && r.pendPass == s.pendPass
      && SamePass(s, r) && SameView(s, r)
  }

  lemma ForgetEffect(s: State, ssid: string, ok: bool, n: nat)
    requires Good(s, n)
    ensures ForgetTaken(s, ForgetNetwork(s, ssid, ok), ssid, ok)
  {
  }

  // ---------------------------------------------------------------- queued work

  /** The first wish in line: a scan, then the link, then the device. */
  function FirstWish(s: State): Job {
    if s.wantScan then Running(Scan, "", "") else if s.wantLink then Running(Link, "", "")
    else if s.wantInfo then Running(Info, "", "") else Idle
  }

  /** The first wish runs and is no longer wished for. */
  predicate WishRuns(s: State, r: State) {
    && r.job == FirstWish(s) && r.joinsStarted == s.joinsStarted && r.stuck == s.stuck
    && !r.wantScan && r.wantLink == (s.wantLink && s.wantScan)
    && r.wantInfo == (s.wantInfo && (s.wantScan || s.wantLink))
    && SameMode(s, r) && r.forgetSsid == s.forgetSsid && SameQueue(s, r) && SamePass(s, r) && SameView(s, r)
    && SameNet(s, r)
  }

  /** Nothing starts beside a running process. A queued join goes first, also with the screen off;
      nothing else does then. A wish whose process does not start is kept. */
  predicate WorkTaken(s: State, r: State, ok: bool) {
    if s.job.Running? then r == s
    else if s.wantConnect then JoinBegun(s.(wantConnect := false), r, s.pendSsid, s.pendPass, ok)
    else if s.screenOff || !ok then r == s
    else WishRuns(s, r)
  }

  lemma StartedIs(t: State, kind: Kind, wish: State)
    requires t.job.Idle? && !kind.Connect?
    ensures TryStart(t, kind, true, wish) == t.(job := Running(kind, "", ""))
  {
    assert Started(t, kind, "", "") == t.(job := Running(kind, "", ""));
  }

  lemma ScanRuns(s: State)
    requires s.job.Idle? && s.wantScan
    ensures WishRuns(s, s.(wantScan := false).(job := Running(Scan, "", "")))
  {
  }

  lemma LinkRuns(s: State)
    requires s.job.Idle? && !s.wantScan && s.wantLink
    ensures WishRuns(s, s.(wantLink := false).(job := Running(Link, "", "")))
  {
  }

  lemma InfoRuns(s: State)
    requires s.job.Idle? && !s.wantScan && !s.wantLink && s.wantInfo
    ensures WishRuns(s, s.(wantInfo := false).(job := Running(Info, "", "")))
  {
  }

  lemma NothingRuns(s: State)
    requires s.job.Idle? && !s.wantScan && !s.wantLink && !s.wantInfo
    ensures WishRuns(s, s)
  {
  }

  lemma WishStarts(s: State)
    requires s.job.Idle?
    ensures WishRuns(s, RunWish(s, true))
  {
    hide TryStart, WishRuns;
    if s.wantScan {
      var t := s.(wantScan := false);
      StartedIs(t, Scan, t.(wantScan := true));
      ScanRuns(s);
    } else if s.wantLink {
      var t := s.(wantLink := false);
      StartedIs(t, Link, t.(wantLink := true));
      LinkRuns(s);
    } else if s.wantInfo {
      var t := s.(wantInfo := false);
      StartedIs(t, Info, t.(wantInfo := true));
      InfoRuns(s);
    } else {
      NothingRuns(s);
    }
  }

  lemma WishKept(s: State)
    requires s.job.Idle?
    ensures RunWish(s, false) == s
  {
  }

  lemma KickEffect(s: State, ok: bool, n: nat)
    requires Good(s, n)
    ensures WorkTaken(s, Kick(s, ok), ok)
  {
    hide JoinAs, RunWish, HeldBack, WithinBudget, ProbeAnswered, JoinBegun, WishRuns;
    if s.job.Idle? {
      if s.wantConnect {
        JoinEffect(s.(wantConnect := false), s.pendSsid, s.pendPass, ok);
      } else if ok {
        WishStarts(s);
      } else {
        WishKept(s);
      }
    }
  }

  /** A process is started unless one runs; one that is not started is wished for, the radio's as the
      device's. */
  predicate StartTaken(s: State, r: State, kind: Kind, ok: bool) {
    if s.job.Idle? && ok then r == s.(job := Running(kind, "", ""))
    else
      r == match kind
           case Scan => s.(wantScan := true)
           case Link => s.(wantLink := true)
           case _ => s.(wantInfo := true)
  }

  lemma StartEffect(s: State, ok: bool)
    ensures StartTaken(s, StartScan(s, ok), Scan, ok) && StartTaken(s, StartLink(s, ok), Link, ok)
    ensures StartTaken(s, StartInfo(s, ok), Info, ok) && StartTaken(s, StartRadio(s, ok), Radio, ok)
  {
  }

  // ---------------------------------------------------------------- reports

  /** The window closes on the network asked for or on time; closing it on the network shows its rows,
      and only them, in use. */
  predicate WindowTaken(s: State, r: State, timedOut: bool) {
    var there := s.connected && s.live == s.connectSsid;
    if !s.waiting || (!there && !timedOut) then r == s
    else
      && !r.waiting && !r.connecting && !r.busy && r.forgetting == s.forgetting && r.connectSsid == s.connectSsid
      && SameJob(s, r) && SameQueue(s, r) && SamePass(s, r) && r.forgetSsid == s.forgetSsid
      && r.connected == s.connected && r.live == s.live
      && r.selectedSsid == s.selectedSsid && r.screenOff == s.screenOff
      && r.wantInfo == s.wantInfo && r.wantLink == s.wantLink
      && if there then
           && r.sheet.NoSheet? && r.wantScan && |r.aps| == |s.aps|
           && forall i :: 0 <= i < |r.aps| ==> r.aps[i] == Ap(s.aps[i].ssid, s.aps[i].ssid == s.connectSsid)
         else r.aps == s.aps && r.wantScan == s.wantScan && r.sheet == if s.sheet.NoSheet? then Detail else s.sheet
  }

  lemma ConfirmEffect(s: State, timedOut: bool, n: nat)
    requires Good(s, n)
    ensures WindowTaken(s, Confirm(s, timedOut), timedOut)
  {
    hide Good, Closed, Arrived, Missed, WindowTaken;
    if s.waiting {
      WindowIsNamed(s, n);
      if AlreadyOn(s.connected, s.live, s.connectSsid) {
        ArrivalCloses(s, timedOut);
      } else if timedOut {
        MissCloses(s);
      } else {
        WindowOpen(s);
      }
    } else {
      NoWindow(s, timedOut);
    }
  }

  lemma WindowIsNamed(s: State, n: nat)
    requires Good(s, n) && s.waiting
    ensures s.connectSsid != ""
  {
    hide HeldBack;
  }

  lemma NoWindow(s: State, timedOut: bool)
    requires !s.waiting
    ensures WindowTaken(s, s, timedOut)
  {
  }

  lemma WindowOpen(s: State)
    requires s.waiting && s.connectSsid != "" && !AlreadyOn(s.connected, s.live, s.connectSsid)
    ensures WindowTaken(s, s, false)
  {
  }

  lemma ArrivalCloses(s: State, timedOut: bool)
    requires s.waiting && AlreadyOn(s.connected, s.live, s.connectSsid)
    ensures WindowTaken(s, Arrived(Closed(s)), timedOut)
  {
    var c := s.(waiting := false, connecting := false, busy := false);
    assert Arrived(Closed(s)) == c.(aps := MarkActive(s.aps, s.connectSsid), sheet := NoSheet, wantScan := true);
  }

  lemma MissCloses(s: State)
    requires s.waiting && s.connectSsid != "" && !AlreadyOn(s.connected, s.live, s.connectSsid)
    ensures WindowTaken(s, Missed(Closed(s)), true)
  {
    var c := s.(waiting := false, connecting := false, busy := false);
    assert Missed(Closed(s)) == c.(sheet := if s.sheet.NoSheet? then Detail else s.sheet);
  }

  /** A device report sets the link state, except that a connection is not believed while it may be
      the forgotten one; the hold ends exactly with a device that is down. */
  predicate InfoTaken(s: State, r: State, sawWifi: bool, up: bool, isBusy: bool) {
    var disowned := s.forgetSsid != "" && up && s.live == "";
    if !sawWifi then r == s
    else
      && r.connected == (up && !disowned) && r.busy == (isBusy && !disowned) && r.live == s.live
      && r.forgetSsid == (if !up && !isBusy then "" else s.forgetSsid)
      && SameJob(s, r) && SameQueue(s, r) && SamePass(s, r) && SameView(s, r) && SameWishes(s, r)
      && r.connecting == s.connecting && r.forgetting == s.forgetting && r.waiting == s.waiting
      && r.connectSsid == s.connectSsid && r.aps == s.aps
  }

  lemma DisownedEffect(s: State, up: bool, isBusy: bool, n: nat)
    requires Good(s, n) && ForgetHolds(s.forgetSsid, up, s.live)
    ensures InfoTaken(s, Disowned(Reported(s, up, isBusy)), true, up, isBusy)
  {
    hide OneMode, WithinBudget, ProbeAnswered;
    assert Disowned(Reported(s, up, isBusy)) == s.(connected := false, busy := false, live := "");
  }

  lemma ReleasedEffect(s: State, n: nat)
    requires Good(s, n)
    ensures InfoTaken(s, Released(Reported(s, false, false)), true, false, false)
  {
    hide OneMode, WithinBudget, ProbeAnswered;
    assert Released(Reported(s, false, false)) == s.(connected := false, busy := false, forgetSsid := "");
  }

  lemma ReportedEffect(s: State, up: bool, isBusy: bool, n: nat)
    requires Good(s, n) && !ForgetHolds(s.forgetSsid, up, s.live) && (up || isBusy)
    ensures InfoTaken(s, Reported(s, up, isBusy), true, up, isBusy)
  {
    hide OneMode, WithinBudget, ProbeAnswered;
    assert Reported(s, up, isBusy) == s.(connected := up, busy := isBusy);
  }

  lemma InfoEffect(s: State, sawWifi: bool, up: bool, isBusy: bool, n: nat)
    requires Good(s, n)
    ensures InfoTaken(s, TakeInfo(s, sawWifi, up, isBusy), sawWifi, up, isBusy)
  {
    hide Good, InfoTaken, ForgetHolds, Disowned, Reported, Released;
    if !sawWifi {
      NoReport(s, up, isBusy);
    } else if ForgetHolds(s.forgetSsid, up, s.live) {
      DisownedEffect(s, up, isBusy, n);
    } else if !up && !isBusy {
      ReleasedEffect(s, n);
    } else {
      ReportedEffect(s, up, isBusy, n);
    }
  }

  lemma NoReport(s: State, up: bool, isBusy: bool)
    ensures InfoTaken(s, s, false, up, isBusy)
  {
  }
}
