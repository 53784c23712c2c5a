/** Terse nmcli output: fields joined by ':', with ':' and '\' inside a field escaped by '\'. The
    HUD splits a line in place by overwriting separators with NUL, and unescapes a field in place
    with a write pointer trailing the read pointer. */
module FieldSplit {

  const NUL := '\0'
  const MAX_FIELDS := 8

  // ---------------------------------------------------------------- what nmcli prints

  function Escape(f: string): string {
    if f == [] then []
    else (if f[0] == ':' || f[0] == '\\' then ['\\', f[0]] else [f[0]]) + Escape(f[1..])
  }

  function Join(fields: seq<string>): string
    requires fields != []
  {
    if |fields| == 1 then Escape(fields[0]) else Escape(fields[0]) + [':'] + Join(fields[1..])
  }

  // ---------------------------------------------------------------- what the HUD reads

  /** Puts a piece in front of the first field. */
  function Prefixed(piece: string, fields: seq<string>): (r: seq<string>)
    requires fields != []
    ensures |r| == |fields|
  {
    [piece + fields[0]] + fields[1..]
  }

  /** Splits on separators that are not escaped; escapes stay in the fields. */
  function Split(s: string): (r: seq<string>)
    ensures r != []
    decreases |s|
  {
    if s == [] then [[]]
    else if s[0] == '\\' && |s| > 1 then Prefixed(s[..2], Split(s[2..]))
    else if s[0] == ':' then [[]] + Split(s[1..])
    else Prefixed(s[..1], Split(s[1..]))
  }

  function Unescape(s: string): string
    decreases |s|
  {
    if s == [] then []
    else if s[0] == '\\' && |s| > 1 then [s[1]] + Unescape(s[2..])
    else [s[0]] + Unescape(s[1..])
  }

  // ---------------------------------------------------------------- they are inverse

  lemma {:induction false} UnescapeInvertsEscape(f: string)
    ensures Unescape(Escape(f)) == f
  {
    if f != [] {
      UnescapeInvertsEscape(f[1..]);
      var e := Escape(f);
      if f[0] == ':' || f[0] == '\\' {
        assert e[2..] == Escape(f[1..]);
      } else {
        assert e[1..] == Escape(f[1..]);
      }
    }
  }

  lemma PrefixedTwice(a: string, b: string, fields: seq<string>)
    requires fields != []
    ensures Prefixed(a, Prefixed(b, fields)) == Prefixed(a + b, fields)
  {
    assert a + (b + fields[0]) == (a + b) + fields[0];
  }

  lemma PrefixedEmpty(fields: seq<string>)
    requires fields != []
    ensures Prefixed([], fields) == fields
  {
    assert [] + fields[0] == fields[0];
  }

  lemma SplitPair(c: char, rest: string)
    ensures Split(['\\', c] + rest) == Prefixed(['\\', c], Split(rest))
  {
    var s := ['\\', c] + rest;
    assert s[..2] == ['\\', c] && s[2..] == rest;
  }

  lemma SplitPlain(c: char, rest: string)
    requires c != ':' && c != '\\'
    ensures Split([c] + rest) == Prefixed([c], Split(rest))
  {
    var s := [c] + rest;
    assert s[..1] == [c] && s[1..] == rest;
  }

  /** Splitting runs through an escaped field without finding a separator. */
  lemma {:induction false} SplitPassesField(f: string, rest: string)
    ensures Split(Escape(f) + rest) == Prefixed(Escape(f), Split(rest))
  {
    hide Split, Prefixed;
    if f == [] {
      assert Escape(f) + rest == rest;
      PrefixedEmpty(Split(rest));
    } else {
      SplitPassesField(f[1..], rest);
      var tail := Escape(f[1..]);
      if f[0] == ':' || f[0] == '\\' {
        SplitPair(f[0], tail + rest);
        PrefixedTwice(['\\', f[0]], tail, Split(rest));
        assert Escape(f) + rest == ['\\', f[0]] + (tail + rest);
      } else {
        SplitPlain(f[0], tail + rest);
        PrefixedTwice([f[0]], tail, Split(rest));
        assert Escape(f) + rest == [f[0]] + (tail + rest);
      }
    }
  }

  function Escaped(fields: seq<string>): seq<string> {
    seq(|fields|, i requires 0 <= i < |fields| => Escape(fields[i]))
  }

  /** Any record of any fields is split back into exactly its escaped fields. */
  lemma {:induction false} SplitInvertsJoin(fields: seq<string>)
    requires fields != []
    ensures Split(Join(fields)) == Escaped(fields)
  {
    if |fields| == 1 {
      SplitPassesField(fields[0], []);
      assert Escape(fields[0]) + [] == Escape(fields[0]);
    } else {
      SplitInvertsJoin(fields[1..]);
      var rest := [':'] + Join(fields[1..]);
      SplitPassesField(fields[0], rest);
      assert Escape(fields[0]) + [':'] + Join(fields[1..]) == Escape(fields[0]) + rest;
      assert rest[1..] == Join(fields[1..]);
      assert Split(rest) == [[]] + Escaped(fields[1..]);
      assert Escape(fields[0]) + [] == Escape(fields[0]);
      assert Escaped(fields) == [Escape(fields[0])] + Escaped(fields[1..]);
    }
  }

  // ---------------------------------------------------------------- on any line

  /** How many backslashes stand right before position k. */
  function Run(s: string, k: nat): nat
    requires k <= |s|
  {
    if k == 0 || s[k - 1] != '\\' then 0 else 1 + Run(s, k - 1)
  }

  /** A character is escaped if an odd number of backslashes stands right before it. */
  predicate IsEscaped(s: string, k: nat)
    requires k <= |s|
  {
    Run(s, k) % 2 == 1
  }

  function Glue(pieces: seq<string>): string
    requires pieces != []
  {
    if |pieces| == 1 then pieces[0] else pieces[0] + [':'] + Glue(pieces[1..])
  }

  /** Every separator inside a piece is escaped, and none of those between the pieces is. */
  ghost predicate CutAtUnescaped(pieces: seq<string>) {
    && (forall i, k :: 0 <= i < |pieces| && 0 <= k < |pieces[i]| && pieces[i][k] == ':' ==> IsEscaped(pieces[i], k))
    && (forall i :: 0 <= i < |pieces| - 1 ==> !IsEscaped(pieces[i], |pieces[i]|))
  }

  /** A whole escape, or a plain character, says nothing about what follows it. */
  predicate IsUnit(p: string) {
    (|p| == 1 && p[0] != '\\') || (|p| == 2 && p[0] == '\\')
  }

  lemma {:induction false} BehindUnit(p: string, q: string, k: nat)
    requires IsUnit(p) && k <= |q|
    ensures IsEscaped(p + q, |p| + k) == IsEscaped(q, k)
  {
    var s := p + q;
    if k == 0 {
      assert |p| == 2 ==> Run(s, 1) == 1 && Run(s, 2) == if p[1] == '\\' then 2 else 0;
    } else {
      BehindUnit(p, q, k - 1);
      assert s[|p| + k - 1] == q[k - 1];
    }
  }

  lemma {:induction false} GlueOfPrefixed(piece: string, pieces: seq<string>)
    requires pieces != []
    ensures Glue(Prefixed(piece, pieces)) == piece + Glue(pieces)
  {
    var r := Prefixed(piece, pieces);
    if |pieces| > 1 {
      assert r[1..] == pieces[1..];
      assert (piece + pieces[0]) + [':'] + Glue(pieces[1..]) == piece + (pieces[0] + [':'] + Glue(pieces[1..]));
    }
  }

  lemma PrefixedCut(p: string, pieces: seq<string>)
    requires IsUnit(p) && (p[0] == ':' ==> |p| == 2) && pieces != [] && CutAtUnescaped(pieces)
    ensures CutAtUnescaped(Prefixed(p, pieces))
  {
    var r := Prefixed(p, pieces);
    forall i, k | 0 <= i < |r| && 0 <= k < |r[i]| && r[i][k] == ':' ensures IsEscaped(r[i], k) {
      if i == 0 && k >= |p| {
        BehindUnit(p, pieces[0], k - |p|);
      }
      assert i == 0 && k == 1 < |p| ==> Run(r[0], 1) == 1;
    }
    BehindUnit(p, pieces[0], |pieces[0]|);
  }

  lemma OnePieceCut(s: string)
    requires s == [] || s == ['\\']
    ensures CutAtUnescaped([s])
  {
  }

  lemma SeparatorCut(pieces: seq<string>)
    requires CutAtUnescaped(pieces)
    ensures CutAtUnescaped([[]] + pieces)
  {
  }

  /** Any line, printed by nmcli or not, is cut at its unescaped separators and nowhere else. */
  lemma {:induction false} SplitCutsAtUnescaped(s: string)
    ensures Glue(Split(s)) == s && CutAtUnescaped(Split(s))
    decreases |s|
  {
    hide CutAtUnescaped;
    if s == [] || s == ['\\'] {
      OnePieceCut(s);
      assert s == [] || (s[1..] == [] && s[..1] + [] == s);
      assert Split(s) == [s];
    } else if s[0] == '\\' {
      SplitCutsAtUnescaped(s[2..]);
      GlueOfPrefixed(s[..2], Split(s[2..]));
      PrefixedCut(s[..2], Split(s[2..]));
      assert s[..2] + s[2..] == s;
    } else if s[0] == ':' {
      SplitCutsAtUnescaped(s[1..]);
      SeparatorCut(Split(s[1..]));
      assert Split(s)[1..] == Split(s[1..]);
      assert [] + [':'] + s[1..] == s;
    } else {
      SplitCutsAtUnescaped(s[1..]);
      GlueOfPrefixed(s[..1], Split(s[1..]));
      PrefixedCut(s[..1], Split(s[1..]));
      assert s[..1] + s[1..] == s;
    }
  }

  /** An escaping backslash: not itself escaped, and with something behind it. */
  predicate Escapes(s: string, k: nat)
    requires k < |s|
  {
    s[k] == '\\' && !IsEscaped(s, k) && k + 1 < |s|
  }

  /** The first k characters without the backslashes that escape. */
  function WithoutEscapes(s: string, k: nat): string
    requires k <= |s|
  {
    if k == 0 then [] else WithoutEscapes(s, k - 1) + if Escapes(s, k - 1) then [] else [s[k - 1]]
  }

  lemma UnitWithoutEscapes(p: string, q: string)
    requires IsUnit(p)
    ensures WithoutEscapes(p + q, |p|) == [p[|p| - 1]]
  {
    var s := p + q;
    if |p| == 2 {
      assert s[0] == '\\' && Run(s, 0) == 0 && Run(s, 1) == 1;
      assert Escapes(s, 0) && !Escapes(s, 1);
      assert WithoutEscapes(s, 1) == [];
    } else {
      assert s[0] == p[0] && !Escapes(s, 0) && WithoutEscapes(s, 0) == [];
    }
  }

  lemma {:induction false} WithoutEscapesBehind(p: string, q: string, k: nat)
    requires IsUnit(p) && k <= |q|
    ensures WithoutEscapes(p + q, |p| + k) == [p[|p| - 1]] + WithoutEscapes(q, k)
  {
    if k == 0 {
      UnitWithoutEscapes(p, q);
    } else {
      WithoutEscapesBehind(p, q, k - 1);
      BehindUnit(p, q, k - 1);
      hide IsEscaped, IsUnit;
      var s, n := p + q, |p| + k - 1;
      assert s[n] == q[k - 1] && Escapes(s, n) == Escapes(q, k - 1);
      var x, y := WithoutEscapes(q, k - 1), if Escapes(s, n) then [] else [s[n]];
      assert ([p[|p| - 1]] + x) + y == [p[|p| - 1]] + (x + y);
    }
  }

  /** Any field, well escaped or not, loses exactly the backslashes that escape. */
  lemma {:induction false} UnescapeDropsEscapes(s: string)
    ensures Unescape(s) == WithoutEscapes(s, |s|)
    decreases |s|
  {
    if s == [] {
    } else if s == ['\\'] {
      assert WithoutEscapes(s, 1) == WithoutEscapes(s, 0) + ['\\'];
    } else {
      var n := if s[0] == '\\' then 2 else 1;
      UnescapeDropsEscapes(s[n..]);
      WithoutEscapesBehind(s[..n], s[n..], |s| - n);
      assert s[..n] + s[n..] == s;
    }
  }

  // ---------------------------------------------------------------- in place

  /** A C string occupies b[i..e], with its terminator at e. */
  predicate IsCStr(b: seq<char>, i: nat, e: nat) {
    i <= e < |b| && b[e] == NUL && forall k :: i <= k < e ==> b[k] != NUL
  }

  /** The cut so far: the fields done, and what is left read as the rest of the current field. */
  ghost predicate Cut(was: seq<char>, all: seq<string>, done: seq<string>, start: nat, p: nat, end: nat) {
    start <= p <= end <= |was| && all == done + Prefixed(was[start..p], Split(was[p..end]))
  }

  lemma CutStarts(was: seq<char>, line: nat, end: nat)
    requires line <= end <= |was|
    ensures Cut(was, Split(was[line..end]), [], line, line, end)
  {
    PrefixedEmpty(Split(was[line..end]));
    assert was[line..line] == [];
  }

  lemma CutPasses(was: seq<char>, all: seq<string>, done: seq<string>, start: nat, p: nat, n: nat, end: nat)
    requires Cut(was, all, done, start, p, end)
    requires n == 1 || n == 2
    requires p + n <= end
    requires n == 2 ==> was[p] == '\\'
    requires n == 1 ==> was[p] != ':' && (was[p] == '\\' ==> p + 1 == end)
    ensures Cut(was, all, done, start, p + n, end)
  {
    var rest := was[p..end];
    assert rest[..n] == was[p..p + n] && rest[n..] == was[p + n..end];
    assert was[start..p] + was[p..p + n] == was[start..p + n];
    PrefixedTwice(was[start..p], rest[..n], Split(rest[n..]));
  }

  lemma CutSeparates(was: seq<char>, all: seq<string>, done: seq<string>, start: nat, p: nat, end: nat)
    requires Cut(was, all, done, start, p, end) && p < end && was[p] == ':'
    ensures Cut(was, all, done + [was[start..p]], p + 1, p + 1, end)
  {
    var rest := was[p..end];
    assert rest[1..] == was[p + 1..end] && was[p + 1..p + 1] == [];
    PrefixedEmpty(Split(was[p + 1..end]));
    assert was[start..p] + [] == was[start..p];
    assert Prefixed(was[start..p], Split(rest)) == [was[start..p]] + Split(was[p + 1..end]);
  }

  lemma CutEnds(was: seq<char>, all: seq<string>, done: seq<string>, start: nat, end: nat)
    requires Cut(was, all, done, start, end, end)
    ensures all == done + [was[start..end]]
  {
    assert was[end..end] == [];
    assert was[start..end] + [] == was[start..end];
  }

  /** Field boundaries found so far: adjacent, each followed by its overwritten separator. */
  ghost predicate Boundaries(buf: seq<char>, was: seq<char>, line: nat, start: nat,
                             fields: seq<nat>, ends: seq<nat>, done: seq<string>)
  {
    && |buf| == |was| && |fields| == |ends| == |done|
    && (forall k :: 0 <= k < |fields| ==> line <= fields[k] <= ends[k] < start <= |was|)
    && (forall k :: 0 <= k < |fields| ==> buf[ends[k]] == NUL && done[k] == was[fields[k]..ends[k]])
    && (forall k, i :: 0 <= k < |fields| && fields[k] <= i < ends[k] ==> buf[i] == was[i])
    && (forall k :: 0 < k < |fields| ==> fields[k] == ends[k - 1] + 1)
    && start == (if |fields| == 0 then line else ends[|fields| - 1] + 1)
  }

  lemma BoundaryAdded(buf: seq<char>, was: seq<char>, line: nat, start: nat, p: nat,
                      fields: seq<nat>, ends: seq<nat>, done: seq<string>)
    requires Boundaries(buf, was, line, start, fields, ends, done)
    requires line <= start <= p < |was| && forall i :: start <= i < |was| ==> buf[i] == was[i]
    ensures Boundaries(buf[p := NUL], was, line, p + 1, fields + [start], ends + [p], done + [was[start..p]])
  {
  }

  /** The fields of a record lie in the buffer as C strings. */
  ghost predicate HoldsFields(b: seq<char>, fields: seq<nat>, ends: seq<nat>, vals: seq<string>) {
    && |fields| == |ends| == |vals|
    && (forall k :: 0 <= k < |fields| ==> IsCStr(b, fields[k], ends[k]) && b[fields[k]..ends[k]] == vals[k])
    && (forall k :: 0 < k < |fields| ==> fields[k] == ends[k - 1] + 1)
  }

  lemma FieldKept(buf: seq<char>, was: seq<char>, line: nat, start: nat, end: nat,
                  fields: seq<nat>, ends: seq<nat>, done: seq<string>, k: nat)
    requires Boundaries(buf, was, line, start, fields, ends, done) && k < |fields|
    requires IsCStr(was, line, end) && line <= start <= end
    ensures IsCStr(buf, fields[k], ends[k]) && buf[fields[k]..ends[k]] == done[k]
  {
    assert forall i :: fields[k] <= i < ends[k] ==> buf[i] == was[i];
    assert buf[fields[k]..ends[k]] == was[fields[k]..ends[k]];
  }

  lemma BoundariesHoldFields(buf: seq<char>, was: seq<char>, line: nat, start: nat, end: nat,
                             fields: seq<nat>, ends: seq<nat>, done: seq<string>)
    requires Boundaries(buf, was, line, start, fields, ends, done)
    requires IsCStr(was, line, end) && line <= start <= end
    requires forall i :: start <= i < |was| ==> buf[i] == was[i]
    ensures HoldsFields(buf, fields + [start], ends + [end], done + [was[start..end]])
  {
    assert buf[start..end] == was[start..end];
    var fs, es, vals := fields + [start], ends + [end], done + [was[start..end]];
    forall k | 0 <= k < |fs| ensures IsCStr(buf, fs[k], es[k]) && buf[fs[k]..es[k]] == vals[k] {
      if k < |fields| {
        FieldKept(buf, was, line, start, end, fields, ends, done, k);
      }
    }
  }

  /** Everything the splitting loop keeps. */
  ghost predicate Splitting(buf: seq<char>, was: seq<char>, line: nat, start: nat, p: nat, end: nat,
                            fields: seq<nat>, ends: seq<nat>, done: seq<string>)
  {
    && IsCStr(was, line, end) && line <= start <= p <= end
    && Cut(was, Split(was[line..end]), done, start, p, end)
    && Boundaries(buf, was, line, start, fields, ends, done)
    && (forall i :: 0 <= i < |was| && (i < line || start <= i) ==> buf[i] == was[i])
  }

  lemma SplittingStarts(was: seq<char>, line: nat, end: nat)
    requires IsCStr(was, line, end)
    ensures Splitting(was, was, line, line, line, end, [], [], []) && line <= end < |was|
    ensures was[end] == NUL && forall i :: line <= i < end ==> was[i] != NUL
  {
    CutStarts(was, line, end);
  }

  lemma SplittingPasses(buf: seq<char>, was: seq<char>, line: nat, start: nat, p: nat, n: nat, end: nat,
                        fields: seq<nat>, ends: seq<nat>, done: seq<string>)
    requires Splitting(buf, was, line, start, p, end, fields, ends, done) && p < end
    requires n == if buf[p] == '\\' && buf[p + 1] != NUL then 2 else 1
    requires n == 1 ==> buf[p] != ':'
    ensures Splitting(buf, was, line, start, p + n, end, fields, ends, done)
  {
    CutPasses(was, Split(was[line..end]), done, start, p, n, end);
  }

  lemma SplittingSeparates(buf: seq<char>, was: seq<char>, line: nat, start: nat, p: nat, end: nat,
                           fields: seq<nat>, ends: seq<nat>, done: seq<string>)
    requires Splitting(buf, was, line, start, p, end, fields, ends, done) && p < end && buf[p] == ':'
    ensures Splitting(buf[p := NUL], was, line, p + 1, p + 1, end,
                      fields + [start], ends + [p], done + [was[start..p]])
  {
    CutSeparates(was, Split(was[line..end]), done, start, p, end);
    BoundaryAdded(buf, was, line, start, p, fields, ends, done);
  }

  /** The loop leaves at the end of the line, or with a full array right behind a separator. */
  lemma SplittingEnds(buf: seq<char>, was: seq<char>, line: nat, start: nat, p: nat, end: nat,
                      fields: seq<nat>, ends: seq<nat>, done: seq<string>)
    requires Splitting(buf, was, line, start, p, end, fields, ends, done)
    requires if |fields| < MAX_FIELDS then p == end else |fields| == MAX_FIELDS && p == start
    ensures Stored(buf, fields + [start], ends + [end], Split(was[line..end]), was[start..end])
    ensures forall k :: 0 <= k < |fields| ==> line <= fields[k] && ends[k] <= end
    ensures |fields| == |ends|
    ensures |fields| == MAX_FIELDS <==> |Split(was[line..end])| > MAX_FIELDS
  {
    var all := Split(was[line..end]);
    BoundariesHoldFields(buf, was, line, start, end, fields, ends, done);
    if |fields| < MAX_FIELDS {
      CutEnds(was, all, done, start, end);
    } else {
      PrefixedEmpty(Split(was[start..end]));
      assert was[start..start] == [];
      assert all == done + Split(was[start..end]);
    }
  }

  /** What the stores of the split leave: all fields of a line with room for them; otherwise the first
      eight, and a ninth store for everything after them, unsplit. */
  ghost predicate Stored(b: seq<char>, fields: seq<nat>, ends: seq<nat>, all: seq<string>, rest: string) {
    if |all| <= 8 then HoldsFields(b, fields, ends, all)
    else HoldsFields(b, fields, ends, all[..8] + [rest]) && Split(rest) == all[8..]
  }

  /** Splits the line in place; returns where the fields start, in the order in which they are stored,
      and as a ghost where they end. The last store is to slot `last`; the program has slots 0 to 7, so
      it stores past them exactly if the line has more than eight fields. */
  method SplitFields(buf: array<char>, line: nat, ghost end: nat)
    returns (fields: seq<nat>, ghost ends: seq<nat>, last: nat)
    requires IsCStr(buf[..], line, end)
    modifies buf
    ensures |fields| == |ends| == last + 1 <= 9 && line <= fields[last] <= end < buf.Length
    ensures last == 8 <==> |Split(old(buf[..])[line..end])| > 8
    ensures Stored(buf[..], fields, ends, Split(old(buf[..])[line..end]), old(buf[..])[fields[last]..end])
    ensures forall k :: 0 <= k < |fields| ==> line <= fields[k] && ends[k] <= end
    ensures forall i :: 0 <= i < buf.Length && !(line <= i < end) ==> buf[i] == old(buf[i])
  {
    hide Splitting, IsCStr, Stored;
    var p: nat, start: nat := line, line;
    fields, ends := [], [];
    ghost var was := buf[..];
    ghost var done: seq<string> := [];
    SplittingStarts(was, line, end);
    while buf[p] != NUL && |fields| < MAX_FIELDS
      invariant line <= start <= p <= end < buf.Length == |was| && buf[end] == NUL
      invariant |fields| <= MAX_FIELDS && (|fields| == MAX_FIELDS ==> p == start)
      invariant forall i :: p <= i < end ==> buf[i] != NUL
      invariant Splitting(buf[..], was, line, start, p, end, fields, ends, done)
      invariant forall i :: 0 <= i < buf.Length && !(line <= i < end) ==> buf[i] == was[i]
      decreases end - p
    {
      ghost var now := buf[..];
      assert now[p] == buf[p] && now[p + 1] == buf[p + 1];
      if buf[p] == '\\' && buf[p + 1] != NUL {
        SplittingPasses(now, was, line, start, p, 2, end, fields, ends, done);
        p := p + 2;
        continue;
      }
      if buf[p] == ':' {
        SplittingSeparates(now, was, line, start, p, end, fields, ends, done);
        done := done + [was[start..p]];
        buf[p] := NUL;
        assert buf[..] == now[p := NUL];
        fields, ends := fields + [start], ends + [p];
        start := p + 1;
      } else {
        SplittingPasses(now, was, line, start, p, 1, end, fields, ends, done);
      }
      p := p + 1;
    }
    SplittingEnds(buf[..], was, line, start, p, end, fields, ends, done);
    last := |fields|;
    fields, ends := fields + [start], ends + [end];
  }

  /** Everything the unescaping loop keeps: the bytes written so far and the unescaped rest of the
      original make up the whole result, and nothing from the read index on has been touched. */
  ghost predicate Unescaping(buf: seq<char>, was: seq<char>, at: nat, w: nat, r: nat, end: nat) {
    && IsCStr(was, at, end) && at <= w <= r <= end && |buf| == |was|
    && buf[at..w] + Unescape(was[r..end]) == Unescape(was[at..end])
    && (forall i :: at <= i < w ==> buf[i] != NUL)
    && (forall i :: 0 <= i < |was| && (i < at || r <= i) ==> buf[i] == was[i])
  }

  lemma UnescapingStarts(was: seq<char>, at: nat, end: nat)
    requires IsCStr(was, at, end)
    ensures Unescaping(was, was, at, at, at, end)
    ensures at <= end < |was| && was[end] == NUL && forall i :: at <= i < end ==> was[i] != NUL
  {
    assert was[at..at] == [];
  }

  lemma UnescapingStep(buf: seq<char>, was: seq<char>, at: nat, w: nat, r: nat, n: nat, end: nat)
    requires Unescaping(buf, was, at, w, r, end) && r < end
    requires n == if buf[r] == '\\' && buf[r + 1] != NUL then 2 else 1
    ensures Unescaping(buf[w := buf[r + n - 1]], was, at, w + 1, r + n, end)
  {
    var rest, c := was[r..end], was[r + n - 1];
    assert rest[n..] == was[r + n..end];
    assert Unescape(rest) == [c] + Unescape(was[r + n..end]);
    assert buf[w := c][at..w + 1] == buf[at..w] + [c];
    assert buf[at..w] + ([c] + Unescape(was[r + n..end])) == (buf[at..w] + [c]) + Unescape(was[r + n..end]);
  }

  lemma UnescapingEnds(buf: seq<char>, was: seq<char>, at: nat, w: nat, end: nat)
    requires Unescaping(buf, was, at, w, end, end)
    ensures IsCStr(buf[w := NUL], at, w)
    ensures buf[w := NUL][at..w] == Unescape(was[at..end])
    ensures forall i :: 0 <= i < |was| && (i < at || end < i) ==> buf[w := NUL][i] == was[i]
  {
    assert was[end..end] == [];
    assert buf[w := NUL][at..w] == buf[at..w];
  }

  /** Unescapes the string at `at` in place. The write index never overtakes the read index, so
      every byte is read before it is overwritten. */
  method UnescapeField(buf: array<char>, at: nat, ghost end: nat) returns (ghost newEnd: nat)
    requires IsCStr(buf[..], at, end)
    modifies buf
    ensures at <= newEnd <= end && IsCStr(buf[..], at, newEnd)
    ensures buf[..][at..newEnd] == Unescape(old(buf[..])[at..end])
    ensures forall i :: 0 <= i < buf.Length && (i < at || end < i) ==> buf[i] == old(buf[i])
  {
    hide Unescaping, IsCStr;
    var r: nat, w: nat := at, at;
    ghost var was := buf[..];
    UnescapingStarts(was, at, end);
    while buf[r] != NUL
      invariant at <= w <= r <= end < buf.Length == |was|
      invariant buf[end] == NUL && forall i :: r <= i < end ==> buf[i] != NUL
      invariant Unescaping(buf[..], was, at, w, r, end)
      decreases end - r
    {
      ghost var now := buf[..];
      assert now[r] == buf[r] && now[r + 1] == buf[r + 1];
      UnescapingStep(now, was, at, w, r, if buf[r] == '\\' && buf[r + 1] != NUL then 2 else 1, end);
      if buf[r] == '\\' && buf[r + 1] != NUL {
        r := r + 1;
      }
      buf[w] := buf[r];
      assert buf[..] == now[w := now[r]];
      w := w + 1;
      r := r + 1;
    }
    ghost var now := buf[..];
    UnescapingEnds(now, was, at, w, end);
    buf[w] := NUL;
    assert buf[..] == now[w := NUL];
    newEnd := w;
  }

  // ---------------------------------------------------------------- the whole round trip

  predicate Clean(s: string) {
    forall i :: 0 <= i < |s| ==> s[i] != NUL
  }

  lemma {:induction false} EscapeStaysClean(f: string)
    requires Clean(f)
    ensures Clean(Escape(f))
  {
    if f != [] {
      EscapeStaysClean(f[1..]);
    }
  }

  lemma {:induction false} JoinStaysClean(fields: seq<string>)
    requires fields != [] && forall k :: 0 <= k < |fields| ==> Clean(fields[k])
    ensures Clean(Join(fields))
  {
    EscapeStaysClean(fields[0]);
    if |fields| > 1 {
      JoinStaysClean(fields[1..]);
    }
  }

  /** C string k of the buffer reads vals[k]. */
  ghost predicate HoldsStrings(b: seq<char>, at: seq<nat>, ends: seq<nat>, vals: seq<string>) {
    && |at| == |ends| == |vals|
    && (forall k :: 0 <= k < |at| ==> IsCStr(b, at[k], ends[k]) && b[at[k]..ends[k]] == vals[k])
  }

  /** The first `n` fields read as the record; the others are still escaped. */
  ghost predicate HalfRead(b: seq<char>, at: seq<nat>, bounds: seq<nat>, ends: seq<nat>,
                           record: seq<string>, n: nat)
  {
    && n <= |at| == |bounds| == |record| && |ends| == n
    && (forall k :: 0 <= k < n ==> ends[k] <= bounds[k] && IsCStr(b, at[k], ends[k])
                                   && b[at[k]..ends[k]] == record[k])
    && (forall k :: n <= k < |at| ==> IsCStr(b, at[k], bounds[k]) && b[at[k]..bounds[k]] == Escape(record[k]))
    && (forall j, k :: 0 <= j < k < |at| ==> bounds[j] < at[k])
  }

  /** Fields that follow one another do not overlap. */
  lemma {:induction false} FieldsApart(b: seq<char>, at: seq<nat>, bounds: seq<nat>, vals: seq<string>, j: nat, k: nat)
    requires HoldsFields(b, at, bounds, vals) && j < k < |at|
    ensures bounds[j] < at[k]
  {
    if j + 1 < k {
      FieldsApart(b, at, bounds, vals, j, k - 1);
      assert IsCStr(b, at[k - 1], bounds[k - 1]);
    }
  }

  lemma HalfReadStarts(b: seq<char>, at: seq<nat>, bounds: seq<nat>, record: seq<string>)
    requires HoldsFields(b, at, bounds, Escaped(record))
    ensures HalfRead(b, at, bounds, [], record, 0)
  {
    forall j, k | 0 <= j < k < |at| ensures bounds[j] < at[k] {
      FieldsApart(b, at, bounds, Escaped(record), j, k);
    }
  }

  lemma StringKept(b: seq<char>, was: seq<char>, i: nat, e: nat)
    requires IsCStr(was, i, e) && |b| == |was| && forall j :: i <= j <= e ==> b[j] == was[j]
    ensures IsCStr(b, i, e) && b[i..e] == was[i..e]
  {
  }

  lemma HalfReadStep(b: seq<char>, was: seq<char>, at: seq<nat>, bounds: seq<nat>, ends: seq<nat>,
                     record: seq<string>, n: nat, e: nat)
    requires HalfRead(was, at, bounds, ends, record, n) && n < |at| && |b| == |was|
    requires at[n] <= e <= bounds[n] && IsCStr(b, at[n], e) && b[at[n]..e] == record[n]
    requires forall i :: 0 <= i < |b| && !(at[n] <= i <= bounds[n]) ==> b[i] == was[i]
    ensures HalfRead(b, at, bounds, ends + [e], record, n + 1)
  {
    var all := ends + [e];
    forall k | 0 <= k < n + 1
      ensures all[k] <= bounds[k] && IsCStr(b, at[k], all[k]) && b[at[k]..all[k]] == record[k]
    {
      if k < n {
        StringKept(b, was, at[k], ends[k]);
      }
    }
    forall k | n + 1 <= k < |at| ensures IsCStr(b, at[k], bounds[k]) && b[at[k]..bounds[k]] == Escape(record[k]) {
      StringKept(b, was, at[k], bounds[k]);
    }
  }

  lemma HalfReadNext(b: seq<char>, at: seq<nat>, bounds: seq<nat>, ends: seq<nat>, record: seq<string>, n: nat)
    requires HalfRead(b, at, bounds, ends, record, n) && n < |at|
    ensures |at| == |bounds| == |record| && IsCStr(b, at[n], bounds[n])
    ensures Unescape(b[at[n]..bounds[n]]) == record[n]
  {
    UnescapeInvertsEscape(record[n]);
  }

  lemma HalfReadEnds(b: seq<char>, at: seq<nat>, bounds: seq<nat>, ends: seq<nat>, record: seq<string>)
    requires HalfRead(b, at, bounds, ends, record, |at|)
    ensures HoldsStrings(b, at, ends, record)
  {
  }

  /** A line that prints a record is split and unescaped, all in its own buffer, into the strings
      of that record. */
  method ReadRecord(buf: array<char>, line: nat, ghost end: nat, ghost record: seq<string>)
    returns (fields: seq<nat>, ghost ends: seq<nat>)
    requires 1 <= |record| <= MAX_FIELDS && forall k :: 0 <= k < |record| ==> Clean(record[k])
    requires line <= end < buf.Length && buf[end] == NUL && buf[line..end] == Join(record)
    modifies buf
    ensures HoldsStrings(buf[..], fields, ends, record)
    ensures forall i :: 0 <= i < buf.Length && !(line <= i <= end) ==> buf[i] == old(buf[i])
  {
    hide HalfRead, Join, Unescape, Split;
    ghost var was := buf[..];
    JoinStaysClean(record);
    SplitInvertsJoin(record);
    assert IsCStr(was, line, end) by {
      assert was[line..end] == Join(record);
      assert forall i :: line <= i < end ==> was[i] == Join(record)[i - line];
    }
    assert was[line..end] == Join(record);
    ghost var bounds: seq<nat>;
    var last;
    fields, bounds, last := SplitFields(buf, line, end);
    HalfReadStarts(buf[..], fields, bounds, record);
    ends := [];
    var k: nat := 0;
    while k < |fields|
      invariant k <= |fields| == |bounds| == |record|
      invariant HalfRead(buf[..], fields, bounds, ends, record, k)
      invariant forall j :: 0 <= j < |fields| ==> line <= fields[j] && bounds[j] <= end
      invariant forall i :: 0 <= i < buf.Length && !(line <= i <= end) ==> buf[i] == was[i]
    {
      ghost var now := buf[..];
      HalfReadNext(now, fields, bounds, ends, record, k);
      ghost var e := UnescapeField(buf, fields[k], bounds[k]);
      HalfReadStep(buf[..], now, fields, bounds, ends, record, k, e);
      ends := ends + [e];
      k := k + 1;
    }
    HalfReadEnds(buf[..], fields, bounds, ends, record);
  }
}
