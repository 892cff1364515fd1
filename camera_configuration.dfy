/** Preview-size negotiation (`CameraConfigurationManager`): the device
    advertises its preview sizes as a string such as "320x480,640x960"; the
    size nearest the screen in L1 distance is chosen, the first one seen
    winning ties and an exact match ending the scan; without a usable size the
    screen resolution rounded down to a multiple of 8 is used. */
module CameraConfiguration {
  import opened JavaLang

  /** `android.graphics.Point`. */
  datatype Point = Point(x: Int32, y: Int32)

  /** `Camera.Parameters`: the integer preview format and the flattened
      key/value settings the driver reports. */
  datatype CameraParameters = CameraParameters(previewFormat: Int32, settings: map<string, string>)

  /** `parameters.get(key)`, which is `null` for a key the driver does not report. */
  function Get(params: CameraParameters, key: string): (r: Option<string>)
    ensures r.Some? <==> key in params.settings
    ensures r.Some? ==> r.value == params.settings[key]
  {
    if key in params.settings then Some(params.settings[key]) else None
  }

  const PREVIEW_SIZE_VALUES: string := "preview-size-values"
  const PREVIEW_SIZE_VALUE: string := "preview-size-value"
  const PREVIEW_FORMAT: string := "preview-format"

  // ---------------------------------------------------------------------------
  // Parsing one advertised size

  /** One entry of the size list: trimmed, split at its first 'x', both sides
      read by `Integer.parseInt`; `None` for an entry the source logs as a
      bad preview size and skips. */
  function ParseSize(entry: string): (r: Option<Point>)
    ensures r.Some? ==> 'x' in Trim(entry)
    ensures var t := Trim(entry);
            forall k :: FirstX(t, k) ==>
              (r.Some? <==> ParseInt(t[..k]).Some? && ParseInt(t[k + 1..]).Some?) &&
              (r.Some? ==> r.value == Point(ParseInt(t[..k]).value, ParseInt(t[k + 1..]).value))
  {
    var t := Trim(entry);
    var k := IndexOf(t, 'x');
    if k < 0 then None
    else
      match (ParseInt(t[..k]), ParseInt(t[k + 1..]))
      case (Some(w), Some(h)) => Some(Point(w, h))
      case _ => None
  }

  /** `k` is where the first 'x' of `t` stands. */
  predicate FirstX(t: string, k: int)
  {
    0 <= k < |t| && t[k] == 'x' && 'x' !in t[..k]
  }

  /** How a driver writes a size: `Integer.toString` of both sides around an 'x'. */
  function FormatSize(p: Point): string
  {
    IntToString(p.x) + "x" + IntToString(p.y)
  }

  lemma IntToStringShape(n: Int32)
    ensures |IntToString(n)| > 0 && 'x' !in IntToString(n)
    ensures !IsTrimmable(IntToString(n)[0]) && !IsTrimmable(IntToString(n)[|IntToString(n)| - 1])
  {
    NatToDigitsValue(Abs(n));
    var d := NatToDigits(Abs(n));
    AllDigitsAt(d);
    assert IsDigit(d[|d| - 1]);
    if n < 0 {
      assert IntToString(n) == "-" + d;
    }
    assert forall k :: 0 <= k < |IntToString(n)| ==> IsDigit(IntToString(n)[k]) || IntToString(n)[k] == '-';
  }

  /** Every size, written as a driver writes it, parses back to itself, with
      or without blanks around it. */
  lemma ParseFormattedSize(p: Point, before: string, after: string)
    requires forall k :: 0 <= k < |before| ==> IsTrimmable(before[k])
    requires forall k :: 0 <= k < |after| ==> IsTrimmable(after[k])
    ensures ParseSize(before + FormatSize(p) + after) == Some(p)
  {
    TrimFormatted(p, before, after);
    ParseTrimmedFormat(p, before + FormatSize(p) + after);
  }

  lemma TrimFormatted(p: Point, before: string, after: string)
    requires forall k :: 0 <= k < |before| ==> IsTrimmable(before[k])
    requires forall k :: 0 <= k < |after| ==> IsTrimmable(after[k])
    ensures Trim(before + FormatSize(p) + after) == FormatSize(p)
  {
    var a, b := IntToString(p.x), IntToString(p.y);
    IntToStringShape(p.x);
    IntToStringShape(p.y);
    var f := FormatSize(p);
    var s := before + f + after;
    assert f[0] == a[0] && f[|f| - 1] == b[|b| - 1];
    TrimStartStops(s, 0, |before|);
    TrimEndStops(s, |before|, |s|, |before| + |f|);
    assert s[|before|..|before| + |f|] == f;
  }

  lemma ParseTrimmedFormat(p: Point, s: string)
    requires Trim(s) == FormatSize(p)
    ensures ParseSize(s) == Some(p)
  {
    var a, b := IntToString(p.x), IntToString(p.y);
    IntToStringShape(p.x);
    var f := FormatSize(p);
    IndexAfterPrefix(a, b);
    assert f[..|a|] == a;
    assert f[|a| + 1..] == b;
    ParseIntToString(p.x);
    ParseIntToString(p.y);
  }

  lemma IndexAfterPrefix(a: string, b: string)
    requires 'x' !in a
    ensures IndexOf(a + "x" + b, 'x') == |a|
  {
    var s := a + "x" + b;
    assert s[|a|] == 'x';
    assert s[..|a|] == a;
  }

  lemma TrimStartStops(s: string, st: nat, n: nat)
    requires st <= n < |s| && !IsTrimmable(s[n])
    requires forall k :: st <= k < n ==> IsTrimmable(s[k])
    ensures TrimStart(s, st) == n
    decreases n - st
  {
    if st < n {
      TrimStartStops(s, st + 1, n);
    }
  }

  lemma TrimEndStops(s: string, st: nat, len: nat, m: nat)
    requires st < m <= len <= |s| && !IsTrimmable(s[m - 1])
    requires forall k :: m <= k < len ==> IsTrimmable(s[k])
    ensures TrimEnd(s, st, len) == m
    decreases len
  {
    if m < len {
      TrimEndStops(s, st, len - 1, m);
    }
  }

  // ---------------------------------------------------------------------------
  // Distance and the selection scan

  /** `Math.abs(newX - screen.x) + Math.abs(newY - screen.y)` in 32-bit
      arithmetic; it is the L1 distance whenever that fits in an `int`. */
  function Diff(p: Point, screen: Point): (d: Int32)
    ensures Abs(p.x - screen.x) + Abs(p.y - screen.y) <= MAX_INT ==>
              d == Abs(p.x - screen.x) + Abs(p.y - screen.y)
  {
    WrapOnce(Abs32(WrapOnce(p.x - screen.x)) + Abs32(WrapOnce(p.y - screen.y)))
  }

  /** Each entry of a size list, parsed. The scan's lemmas hold for any
      parser and any distance, so both are parameters; the source's are
      `ParseSize` and `Diff`. */
  function ParseAll(entries: seq<string>, parse: string -> Option<Point>): (r: seq<Option<Point>>)
    ensures |r| == |entries|
    ensures forall i :: 0 <= i < |entries| ==> r[i] == parse(entries[i])
  {
    seq(|entries|, i requires 0 <= i < |entries| => parse(entries[i]))
  }

  /** The entries that parsed, in order. */
  function Present(parsed: seq<Option<Point>>): (c: seq<Point>)
    ensures |c| <= |parsed|
  {
    if |parsed| == 0 then []
    else
      var last := parsed[|parsed| - 1];
      Present(parsed[..|parsed| - 1]) + (if last.Some? then [last.value] else [])
  }

  /** The well-formed entries of a size list, in order. */
  function Candidates(entries: seq<string>): seq<Point>
  {
    Present(ParseAll(entries, ParseSize))
  }

  /** The scan's variables `bestX`/`bestY`, `diff`, and whether it broke out
      on an exact match. */
  datatype ScanState = ScanState(best: Point, diff: Int32, stopped: bool)

  const INITIAL_SCAN: ScanState := ScanState(Point(0, 0), MAX_INT, false)

  /** One turn of the loop on a well-formed candidate `p` at distance `d`:
      distance 0 ends the scan, a strictly smaller distance replaces the best
      one, anything else is passed over. */
  function Step(st: ScanState, p: Point, d: Int32): ScanState
  {
    if st.stopped then st
    else if d == 0 then ScanState(p, st.diff, true)
    else if d < st.diff then ScanState(p, d, false)
    else st
  }

  /** The scan over the candidates in the order the loop visits them. */
  function Scan(c: seq<Point>, dist: Point -> Int32): ScanState
  {
    if |c| == 0 then INITIAL_SCAN else Step(Scan(c[..|c| - 1], dist), c[|c| - 1], dist(c[|c| - 1]))
  }

  /** The source's distance to the screen. */
  function ToScreen(screen: Point): Point -> Int32
  {
    p => Diff(p, screen)
  }

  /** `findBestPreviewSizeValue` as a value: the scan's winner if both its
      sides are positive, else `null`. */
  function BestPreviewSize(s: string, screen: Point): (r: Option<Point>)
    ensures r.Some? ==> r.value.x > 0 && r.value.y > 0
    ensures r.Some? ==> r.value in Candidates(SplitComma(s))
  {
    var c := Candidates(SplitComma(s));
    var st := Scan(c, ToScreen(screen));
    ScanBestIsCandidate(c, ToScreen(screen));
    if st.best.x > 0 && st.best.y > 0 then Some(st.best) else None
  }

  lemma {:induction false} PresentAppend(a: seq<Option<Point>>, b: seq<Option<Point>>)
    ensures Present(a + b) == Present(a) + Present(b)
    decreases |b|
  {
    if |b| == 0 {
      assert a + b == a;
    } else {
      var ab := a + b;
      assert ab[..|ab| - 1] == a + b[..|b| - 1];
      assert ab[|ab| - 1] == b[|b| - 1];
      PresentAppend(a, b[..|b| - 1]);
    }
  }

  lemma ParseAllAppend(a: seq<string>, b: seq<string>, parse: string -> Option<Point>)
    ensures ParseAll(a + b, parse) == ParseAll(a, parse) + ParseAll(b, parse)
  {
    var l, r := ParseAll(a + b, parse), ParseAll(a, parse) + ParseAll(b, parse);
    forall i | 0 <= i < |a + b|
      ensures l[i] == r[i]
    {
      if i < |a| {
        assert (a + b)[i] == a[i];
      } else {
        assert (a + b)[i] == b[i - |a|];
      }
    }
  }

  lemma CandidatesAppend(a: seq<string>, b: seq<string>)
    ensures Candidates(a + b) == Candidates(a) + Candidates(b)
  {
    ParseAllAppend(a, b, ParseSize);
    PresentAppend(ParseAll(a, ParseSize), ParseAll(b, ParseSize));
  }

  /** An entry that does not parse changes nothing: the list selects as if
      it were not there. */
  lemma MalformedEntryIgnored(before: seq<string>, entry: string, after: seq<string>)
    requires ParseSize(entry).None?
    ensures Candidates(before + [entry] + after) == Candidates(before + after)
  {
    ParseAllAppend(before + [entry], after, ParseSize);
    ParseAllAppend(before, [entry], ParseSize);
    ParseAllAppend(before, after, ParseSize);
    var none := ParseAll([entry], ParseSize);
    assert none == [None];
    PresentSkipsNone(ParseAll(before, ParseSize), ParseAll(after, ParseSize), none);
  }

  lemma PresentSkipsNone(pb: seq<Option<Point>>, pa: seq<Option<Point>>, none: seq<Option<Point>>)
    requires none == [None]
    ensures Present(pb + none + pa) == Present(pb + pa)
  {
    PresentAppend(pb + none, pa);
    PresentAppend(pb, none);
    PresentAppend(pb, pa);
    assert Present(none) == [] by {
      assert none[..0] == [];
    }
  }

  /** Once the scan has stopped on an exact match, later candidates are never
      looked at. */
  lemma {:induction false} ScanStopsForGood(c: seq<Point>, rest: seq<Point>, dist: Point -> Int32)
    requires Scan(c, dist).stopped
    ensures Scan(c + rest, dist) == Scan(c, dist)
    decreases |rest|
  {
    if |rest| == 0 {
      assert c + rest == c;
    } else {
      var cr := c + rest;
      assert cr[..|cr| - 1] == c + rest[..|rest| - 1];
      ScanStopsForGood(c, rest[..|rest| - 1], dist);
    }
  }

  lemma {:induction false} ScanBestIsCandidate(c: seq<Point>, dist: Point -> Int32)
    ensures Scan(c, dist).best == Point(0, 0) || Scan(c, dist).best in c
  {
    if |c| > 0 {
      ScanBestIsCandidate(c[..|c| - 1], dist);
      assert forall p :: p in c[..|c| - 1] ==> p in c;
    }
  }

  /** Without an exact match the scan ends holding the earliest candidate of
      least distance, provided that distance is below `Integer.MAX_VALUE`;
      otherwise it still holds the initial (0, 0). */
  lemma {:induction false} ScanIsEarliestMinimum(c: seq<Point>, dist: Point -> Int32)
    requires forall j :: 0 <= j < |c| ==> dist(c[j]) != 0
    ensures !Scan(c, dist).stopped
    ensures forall j :: 0 <= j < |c| ==> Scan(c, dist).diff <= dist(c[j])
    ensures Scan(c, dist).diff == MAX_INT ==> Scan(c, dist).best == Point(0, 0)
    ensures Scan(c, dist).diff < MAX_INT ==>
              exists k :: 0 <= k < |c| && c[k] == Scan(c, dist).best && dist(c[k]) == Scan(c, dist).diff &&
                          forall j :: 0 <= j < k ==> dist(c[j]) > Scan(c, dist).diff
  {
    if |c| > 0 {
      var init := c[..|c| - 1];
      assert forall j :: 0 <= j < |init| ==> init[j] == c[j];
      ScanIsEarliestMinimum(init, dist);
      var st := Scan(init, dist);
      var d := dist(c[|c| - 1]);
      if d < st.diff {
        assert Scan(c, dist) == ScanState(c[|c| - 1], d, false);
      } else {
        assert Scan(c, dist) == st;
        if st.diff < MAX_INT {
          var k :| 0 <= k < |init| && init[k] == st.best && dist(init[k]) == st.diff &&
                   forall j :: 0 <= j < k ==> dist(init[j]) > st.diff;
          assert c[k] == st.best;
        }
      }
    }
  }

  /** The first candidate at distance 0 is the one chosen. */
  lemma ScanTakesFirstExact(c: seq<Point>, k: nat, dist: Point -> Int32)
    requires k < |c| && dist(c[k]) == 0
    requires forall j :: 0 <= j < k ==> dist(c[j]) != 0
    ensures Scan(c, dist).stopped && Scan(c, dist).best == c[k]
  {
    var upTo := c[..k + 1];
    assert upTo[..k] == c[..k];
    ScanIsEarliestMinimum(c[..k], dist);
    assert Scan(upTo, dist).stopped && Scan(upTo, dist).best == c[k];
    ScanStopsForGood(upTo, c[k + 1..], dist);
    assert upTo + c[k + 1..] == c;
  }

  /** The scan as the loop runs it: entry by entry, parsing each in turn and
      passing over the ones that do not parse. */
  function ScanEntries(entries: seq<string>, parse: string -> Option<Point>, dist: Point -> Int32): ScanState
  {
    if |entries| == 0 then INITIAL_SCAN
    else
      var st := ScanEntries(entries[..|entries| - 1], parse, dist);
      var e := entries[|entries| - 1];
      if parse(e).Some? then Step(st, parse(e).value, dist(parse(e).value)) else st
  }

  /** Scanning entry by entry is scanning the entries that parse. */
  lemma {:induction false} ScanEntriesIsScan(entries: seq<string>, parse: string -> Option<Point>, dist: Point -> Int32)
    ensures ScanEntries(entries, parse, dist) == Scan(Present(ParseAll(entries, parse)), dist)
    decreases |entries|
  {
    if |entries| > 0 {
      var init, e := entries[..|entries| - 1], entries[|entries| - 1];
      ScanEntriesIsScan(init, parse, dist);
      assert entries == init + [e];
      ParseAllAppend(init, [e], parse);
      var pi, one := ParseAll(init, parse), ParseAll([e], parse);
      PresentAppend(pi, one);
      assert one == [parse(e)];
      assert one[..0] == [];
      var c := Present(pi);
      if parse(e).Some? {
        assert Present(one) == [parse(e).value];
        assert (c + [parse(e).value])[..|c|] == c;
      } else {
        assert Present(one) == [];
        assert c + [] == c;
      }
    }
  }

  /** Entries after an exact match are never looked at. */
  lemma {:induction false} ScanEntriesStopped(entries: seq<string>, i: nat, parse: string -> Option<Point>, dist: Point -> Int32)
    requires i <= |entries| && ScanEntries(entries[..i], parse, dist).stopped
    ensures ScanEntries(entries, parse, dist) == ScanEntries(entries[..i], parse, dist)
    decreases |entries| - i
  {
    if i < |entries| {
      var n := |entries|;
      if i < n - 1 {
        assert entries[..n - 1][..i] == entries[..i];
        ScanEntriesStopped(entries[..n - 1], i, parse, dist);
      } else {
        assert entries[..n - 1] == entries[..i];
      }
    } else {
      assert entries[..i] == entries;
    }
  }

  /** The scan state after one more entry, from the state before it. */
  lemma ScanEntriesNext(entries: seq<string>, i: nat, parse: string -> Option<Point>, dist: Point -> Int32)
    requires i < |entries|
    ensures ScanEntries(entries[..i + 1], parse, dist) ==
              if parse(entries[i]).Some?
              then Step(ScanEntries(entries[..i], parse, dist), parse(entries[i]).value, dist(parse(entries[i]).value))
              else ScanEntries(entries[..i], parse, dist)
  {
    assert entries[..i + 1][..i] == entries[..i];
  }

  /** The loop of `findBestPreviewSizeValue` over the split entries: it ends
      holding the scan's winner. */
  method ScanSizes(entries: seq<string>, screen: Point) returns (bestX: Int32, bestY: Int32)
    ensures Point(bestX, bestY) == ScanEntries(entries, ParseSize, ToScreen(screen)).best
  {
    ghost var dist := ToScreen(screen);
    var diff: Int32;
    bestX, bestY, diff := 0, 0, MAX_INT;
    for i := 0 to |entries|
      invariant ScanEntries(entries[..i], ParseSize, dist) == ScanState(Point(bestX, bestY), diff, false)
    {
      ScanEntriesNext(entries, i, ParseSize, dist);
      var size := ParseSize(entries[i]);
      if size.None? {
        continue;
      }
      var newDiff := Diff(size.value, screen);
      assert newDiff == dist(size.value);
      if newDiff == 0 {
        bestX, bestY := size.value.x, size.value.y;
        ScanEntriesStopped(entries, i + 1, ParseSize, dist);
        return;
      } else if newDiff < diff {
        bestX, bestY, diff := size.value.x, size.value.y, newDiff;
      }
    }
    assert entries[..|entries|] == entries;
  }

  /** `findBestPreviewSizeValue`: split the list, scan it, and keep the
      winner only if both its sides are positive. */
  method FindBestPreviewSizeValue(s: string, screen: Point) returns (r: Option<Point>)
    ensures r == BestPreviewSize(s, screen)
  {
    var entries := SplitComma(s);
    var bestX, bestY := ScanSizes(entries, screen);
    ScanEntriesIsScan(entries, ParseSize, ToScreen(screen));
    if bestX > 0 && bestY > 0 {
      r := Some(Point(bestX, bestY));
    } else {
      r := None;
    }
  }

  /** A size list as a driver writes it: the sizes, formatted, joined by commas. */
  function SizeList(ps: seq<Point>): string
  {
    Join(seq(|ps|, i requires 0 <= i < |ps| => FormatSize(ps[i])), ',')
  }

  lemma {:induction false} PresentAllSome(parsed: seq<Option<Point>>, ps: seq<Point>)
    requires |parsed| == |ps| && forall i :: 0 <= i < |ps| ==> parsed[i] == Some(ps[i])
    ensures Present(parsed) == ps
    decreases |ps|
  {
    if |ps| > 0 {
      var n := |ps|;
      assert forall i :: 0 <= i < n - 1 ==> parsed[..n - 1][i] == parsed[i];
      PresentAllSome(parsed[..n - 1], ps[..n - 1]);
      assert ps[..n - 1] + [ps[n - 1]] == ps;
    }
  }

  /** A formatted size is a non-empty entry without commas that parses back. */
  lemma FormattedEntry(p: Point)
    ensures FormatSize(p) != "" && ',' !in FormatSize(p)
    ensures ParseSize(FormatSize(p)) == Some(p)
  {
    FormatSizeCommaFree(p);
    ParseFormattedSize(p, "", "");
    assert "" + FormatSize(p) + "" == FormatSize(p);
  }

  lemma FormatSizeCommaFree(p: Point)
    ensures FormatSize(p) != "" && ',' !in FormatSize(p)
  {
    IntToStringShape(p.x);
    IntToStringShape(p.y);
    var f := FormatSize(p);
    assert f[|IntToString(p.x)|] == 'x';
    assert forall k :: 0 <= k < |f| && f[k] == ',' ==> false by {
      NatToDigitsValue(Abs(p.x));
      NatToDigitsValue(Abs(p.y));
      AllDigitsAt(NatToDigits(Abs(p.x)));
      AllDigitsAt(NatToDigits(Abs(p.y)));
      assert forall k :: 0 <= k < |IntToString(p.x)| ==> IntToString(p.x)[k] != ',';
      assert forall k :: 0 <= k < |IntToString(p.y)| ==> IntToString(p.y)[k] != ',';
    }
  }

  /** A size list as a driver writes it yields exactly its sizes, in order,
      as candidates; the empty list is the one empty entry, which is skipped. */
  lemma SizeListCandidates(ps: seq<Point>)
    ensures Candidates(SplitComma(SizeList(ps))) == ps
  {
    if |ps| == 0 {
      assert SplitComma(SizeList(ps)) == [""];
      return;
    }
    var fs := seq(|ps|, i requires 0 <= i < |ps| => FormatSize(ps[i]));
    forall i | 0 <= i < |ps|
      ensures fs[i] != "" && ',' !in fs[i] && ParseSize(fs[i]) == Some(ps[i])
    {
      FormattedEntry(ps[i]);
    }
    SplitCommaJoin(fs);
    PresentAllSome(ParseAll(fs, ParseSize), ps);
  }

  /** On a size list as a driver writes it, the choice is the scan over its
      sizes, refused when not positive on both sides. */
  lemma BestOfSizeList(ps: seq<Point>, screen: Point)
    ensures var best := Scan(ps, ToScreen(screen)).best;
            BestPreviewSize(SizeList(ps), screen) == if best.x > 0 && best.y > 0 then Some(best) else None
  {
    SizeListCandidates(ps);
  }

  /** The worked example: on a 480x800 screen, of 320x480, 640x960 and
      720x1280 (distances 480, 320 and 720) the second is chosen. */
  lemma ChoosesNearestExample(ps: seq<Point>)
    requires ps == [Point(320, 480), Point(640, 960), Point(720, 1280)]
    ensures BestPreviewSize(SizeList(ps), Point(480, 800)) == Some(Point(640, 960))
  {
    BestOfSizeList(ps, Point(480, 800));
    NearestScanExample(ps);
  }

  lemma NearestScanExample(ps: seq<Point>)
    requires ps == [Point(320, 480), Point(640, 960), Point(720, 1280)]
    ensures Scan(ps, ToScreen(Point(480, 800))).best == Point(640, 960)
  {
    var dist := ToScreen(Point(480, 800));
    assert dist(ps[0]) == 480 && dist(ps[1]) == 320 && dist(ps[2]) == 720;
    assert ps[..2][..1] == ps[..1] && ps[..1][..0] == [];
    assert Scan(ps[..1], dist) == ScanState(ps[0], 480, false);
    assert Scan(ps[..2], dist) == ScanState(ps[1], 320, false);
    assert Scan(ps, dist) == Step(Scan(ps[..2], dist), ps[2], 720);
  }

  /** A winner that is not positive on both sides is refused: "320x480,0x800"
      on a 0x800 screen stops on the exact match 0x800 and yields `null`. */
  lemma NonPositiveWinnerExample(ps: seq<Point>)
    requires ps == [Point(320, 480), Point(0, 800)]
    ensures BestPreviewSize(SizeList(ps), Point(0, 800)) == None
  {
    BestOfSizeList(ps, Point(0, 800));
    ExactScanExample(ps);
  }

  lemma ExactScanExample(ps: seq<Point>)
    requires ps == [Point(320, 480), Point(0, 800)]
    ensures Scan(ps, ToScreen(Point(0, 800))).best == Point(0, 800)
  {
    var dist := ToScreen(Point(0, 800));
    assert dist(ps[0]) == 640 && dist(ps[1]) == 0;
    assert ps[..1][..0] == [];
    assert Scan(ps[..1], dist) == ScanState(ps[0], 640, false);
    assert Scan(ps, dist) == Step(Scan(ps[..1], dist), ps[1], 0);
  }

  // ---------------------------------------------------------------------------
  // getCameraResolution

  /** "preview-size-values", or "preview-size-value" (seen on Xperia) only
      when the former is absent. */
  function PreviewSizeString(params: CameraParameters): (r: Option<string>)
    ensures PREVIEW_SIZE_VALUES in params.settings ==> r == Some(params.settings[PREVIEW_SIZE_VALUES])
    ensures PREVIEW_SIZE_VALUES !in params.settings ==> r == Get(params, PREVIEW_SIZE_VALUE)
  {
    var plural := Get(params, PREVIEW_SIZE_VALUES);
    if plural.Some? then plural else Get(params, PREVIEW_SIZE_VALUE)
  }

  /** `(v >> 3) << 3`: the arithmetic shift floors, so this is the largest
      multiple of 8 not above `v` (Dafny's `/` by a positive divisor floors too). */
  function RoundDownTo8(v: Int32): (r: Int32)
    ensures r % 8 == 0
    ensures r <= v < r + 8
  {
    (v / 8) * 8
  }

  function FallbackResolution(screen: Point): (r: Point)
    ensures r.x % 8 == 0 && r.x <= screen.x < r.x + 8
    ensures r.y % 8 == 0 && r.y <= screen.y < r.y + 8
  {
    Point(RoundDownTo8(screen.x), RoundDownTo8(screen.y))
  }

  /** What `getCameraResolution(parameters, screenResolution)` returns. */
  function CameraResolutionFor(params: CameraParameters, screen: Point): (r: Point)
    ensures PreviewSizeString(params).None? ==> r == FallbackResolution(screen)
    ensures PreviewSizeString(params).Some? ==>
              r == (match BestPreviewSize(PreviewSizeString(params).value, screen)
                    case Some(p) => p
                    case None => FallbackResolution(screen))
  {
    match PreviewSizeString(params)
    case None => FallbackResolution(screen)
    case Some(v) =>
      match BestPreviewSize(v, screen)
      case Some(p) => p
      case None => FallbackResolution(screen)
  }

  /** `getCameraResolution(parameters, screenResolution)`, the static overload: looks the size list up and runs
      the selection loop on it. */
  method GetCameraResolutionFrom(params: CameraParameters, screen: Point) returns (r: Point)
    ensures r == CameraResolutionFor(params, screen)
  {
    var sizes := PreviewSizeString(params);
    var best: Option<Point> := None;
    if sizes.Some? {
      best := FindBestPreviewSizeValue(sizes.value, screen);
    }
    if best.None? {
      r := Point(RoundDownTo8(screen.x), RoundDownTo8(screen.y));
    } else {
      r := best.value;
    }
  }

  // ---------------------------------------------------------------------------
  // setDesiredCameraParameters

  const PREVIEW_SIZE: string := "preview-size"
  const FLASH_MODE: string := "flash-mode"
  const ZOOM: string := "zoom"
  const TAKING_PICTURE_ZOOM: string := "taking-picture-zoom"

  /** The parameters `setDesiredCameraParameters` hands back to the camera:
      the negotiated preview size, the flash off and both zoom settings, with
      every other setting and the preview format as the camera reported them. */
  function DesiredParameters(params: CameraParameters, resolution: Point): (r: CameraParameters)
    ensures r.previewFormat == params.previewFormat
    ensures Get(r, PREVIEW_SIZE) == Some(FormatSize(resolution))
    ensures Get(r, FLASH_MODE) == Some("off")
    ensures Get(r, ZOOM) == Some("2.0") && Get(r, TAKING_PICTURE_ZOOM) == Some("20")
    ensures forall k :: k !in {PREVIEW_SIZE, FLASH_MODE, ZOOM, TAKING_PICTURE_ZOOM} ==> Get(r, k) == Get(params, k)
  {
    CameraParameters(params.previewFormat,
      params.settings[PREVIEW_SIZE := FormatSize(resolution)][FLASH_MODE := "off"][ZOOM := "2.0"][TAKING_PICTURE_ZOOM := "20"])
  }

  // ---------------------------------------------------------------------------
  // The stored configuration

  /** The four fields of `CameraConfigurationManager` as one value. */
  datatype ConfigState = ConfigState(screenResolution: Option<Point>, cameraResolution: Option<Point>,
                                     previewFormat: Int32, previewFormatString: Option<string>)

  /** What `initFromCameraParameters` stores for a camera's parameters and
      the display size. */
  function ConfigAfterInit(params: CameraParameters, display: Point): ConfigState
  {
    ConfigState(Some(display), Some(CameraResolutionFor(params, display)), params.previewFormat, Get(params, PREVIEW_FORMAT))
  }

  class CameraConfigurationManager {
    var screenResolution: Option<Point>
    var cameraResolution: Option<Point>
    var previewFormat: Int32
    var previewFormatString: Option<string>

    /** Fields before `initFromCameraParameters`: `null` points, format 0. */
    constructor ()
      ensures screenResolution == None && cameraResolution == None
      ensures previewFormat == 0 && previewFormatString == None
    {
      screenResolution, cameraResolution := None, None;
      previewFormat, previewFormatString := 0, None;
    }

    function Fields(): ConfigState
      reads this
    {
      ConfigState(screenResolution, cameraResolution, previewFormat, previewFormatString)
    }

    predicate Initialized()
      reads this
    {
      screenResolution.Some? && cameraResolution.Some?
    }

    /** Reads the preview format and its string form, takes the display size
        (supplied by the caller instead of queried from the window manager)
        and negotiates the camera resolution. */
    method InitFromCameraParameters(params: CameraParameters, display: Point)
      modifies this
      ensures previewFormat == params.previewFormat
      ensures previewFormatString == Get(params, PREVIEW_FORMAT)
      ensures screenResolution == Some(display)
      ensures cameraResolution == Some(CameraResolutionFor(params, display))
      ensures Fields() == ConfigAfterInit(params, display)
      ensures Initialized()
    {
      previewFormat := params.previewFormat;
      previewFormatString := Get(params, PREVIEW_FORMAT);
      screenResolution := Some(display);
      var resolution := GetCameraResolutionFrom(params, display);
      cameraResolution := Some(resolution);
    }

    function GetCameraResolution(): Option<Point> reads this { cameraResolution }

    function GetScreenResolution(): Option<Point> reads this { screenResolution }

    function GetPreviewFormat(): Int32 reads this { previewFormat }

    function GetPreviewFormatString(): Option<string> reads this { previewFormatString }
  }
}
