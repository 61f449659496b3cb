/** The standalone console scanner: the capture region around the two
    regions of interest, their coordinates relative to the grabbed frame,
    and the main loop that gates each frame's readings, looks a stable new
    pair up and prints what it finds. Screen capture, preprocessing and the
    recogniser are black boxes: each frame arrives as its two post-processed
    readings. */
module Scan {
  import opened Py
  import opened Ocr
  import opened Debounce
  import opened CrApi

  // ------------------------------------------------------------------
  // Capture region
  // ------------------------------------------------------------------

  /** A region of interest `[x, y, w, h]` in screen coordinates. */
  datatype Roi = Roi(x: int, y: int, w: int, h: int)

  /** The grabbed part of the screen. */
  datatype Region = Region(left: int, top: int, width: int, height: int)

  /** The margin kept around the two regions of interest. */
  const Pad: int := 10

  function Min4(a: int, b: int, c: int, d: int): (m: int)
    ensures m <= a && m <= b && m <= c && m <= d
    ensures m == a || m == b || m == c || m == d
  {
    Min(Min(a, b), Min(c, d))
  }

  function Max4(a: int, b: int, c: int, d: int): (m: int)
    ensures m >= a && m >= b && m >= c && m >= d
    ensures m == a || m == b || m == c || m == d
  {
    Max(Max(a, b), Max(c, d))
  }

  /** The padded box around both regions, clipped at the screen's top-left
      corner and at least one pixel wide and high. */
  function BoundingRegion(name: Roi, clan: Roi): (r: Region)
    ensures r.left >= 0 && r.top >= 0 && r.width >= 1 && r.height >= 1
  {
    var left := Max(0, Min4(name.x, name.x + name.w, clan.x, clan.x + clan.w) - Pad);
    var top := Max(0, Min4(name.y, name.y + name.h, clan.y, clan.y + clan.h) - Pad);
    var right := Max4(name.x, name.x + name.w, clan.x, clan.x + clan.w) + Pad;
    var bottom := Max4(name.y, name.y + name.h, clan.y, clan.y + clan.h) + Pad;
    Region(left, top, Max(1, right - left), Max(1, bottom - top))
  }

  /** The configured `capture_region` when it is present and not empty,
      otherwise the bounding region; None when the configured list does not
      unpack into four values. */
  function CaptureRegion(cap: Option<seq<int>>, name: Roi, clan: Roi): (r: Option<Region>)
    ensures cap.Some? && cap.value != [] && |cap.value| == 4 ==>
              r == Some(Region(cap.value[0], cap.value[1], cap.value[2], cap.value[3]))
    ensures cap.Some? && cap.value != [] && |cap.value| != 4 ==> r.None?
    ensures (cap.None? || cap.value == []) ==> r == Some(BoundingRegion(name, clan))
  {
    match cap
    case Some(c) =>
      if c == [] then Some(BoundingRegion(name, clan))
      else if |c| == 4 then Some(Region(c[0], c[1], c[2], c[3]))
      else None
    case None => Some(BoundingRegion(name, clan))
  }

  /** `rel_roi`: the region of interest in the grabbed frame's coordinates. */
  function RelRoi(roi: Roi, left: int, top: int): (r: Roi)
    ensures r.x + left == roi.x && r.y + top == roi.y
    ensures r.w == roi.w && r.h == roi.h
  {
    Roi(roi.x - left, roi.y - top, roi.w, roi.h)
  }

  /** A region of interest lies inside the region. */
  predicate Inside(r: Roi, g: Region)
  {
    0 <= r.x && 0 <= r.y && r.x + r.w <= g.width && r.y + r.h <= g.height
  }

  /** With non-negative screen coordinates, the computed region contains both
      regions of interest once they are made relative to it. */
  lemma BoundingRegionContainsRois(name: Roi, clan: Roi)
    requires name.x >= 0 && name.y >= 0 && clan.x >= 0 && clan.y >= 0
    ensures var g := BoundingRegion(name, clan);
      Inside(RelRoi(name, g.left, g.top), g) && Inside(RelRoi(clan, g.left, g.top), g)
  {
    var g := BoundingRegion(name, clan);
    var right := Max4(name.x, name.x + name.w, clan.x, clan.x + clan.w) + Pad;
    var bottom := Max4(name.y, name.y + name.h, clan.y, clan.y + clan.h) + Pad;
    assert g.width >= right - g.left;
    assert g.height >= bottom - g.top;
  }

  /** A frame grabbed from region `g`: `height` rows of `width` pixels. */
  predicate GrabbedFrom<T>(frame: seq<seq<T>>, g: Region)
  {
    |frame| == g.height && forall r :: 0 <= r < |frame| ==> |frame[r]| == g.width
  }

  /** Cropping a frame grabbed from `g` at the relative coordinates of a
      region of interest that lies inside `g` gives exactly `h` rows of `w`
      pixels, each the grabbed pixel at the same offset from the region's
      relative corner. */
  lemma CropOfRelativeRoi<T>(frame: seq<seq<T>>, g: Region, roi: Roi)
    requires GrabbedFrom(frame, g) && roi.w >= 0 && roi.h >= 0
    requires Inside(RelRoi(roi, g.left, g.top), g)
    ensures var r := RelRoi(roi, g.left, g.top);
      var c := Crop(frame, r.x, r.y, r.w, r.h);
      |c| == roi.h && (forall i :: 0 <= i < roi.h ==> |c[i]| == roi.w) &&
      forall i, j :: 0 <= i < roi.h && 0 <= j < roi.w ==> c[i][j] == frame[r.y + i][r.x + j]
  {
    var r := RelRoi(roi, g.left, g.top);
    CropInBounds(frame, r.x, r.y, r.w, r.h);
  }

  // ------------------------------------------------------------------
  // The main loop
  // ------------------------------------------------------------------

  /** The loop's minimum mean confidence and stability need. */
  const ScanConfMin: real := 40.0
  const ScanStableNeed: int := 1

  /** What one pass of the loop starts from: both post-processed readings
      and the directory as it answers during this pass; a capture or
      recognition failure; or the user's interrupt. */
  datatype Frame =
    | Grabbed(name: Reading, clan: Reading, dir: Directory)
    | GrabFailed(error: string)
    | Interrupted

  /** The lines the scanner prints, without their formatting. */
  datatype Line =
    | Started(region: Region)
    | Readout(name: Reading, clan: Reading)
    | Detected(pair: Pair, conf: real)
    | ClanSuggestions(names: seq<string>)
    | MemberSuggestions(names: seq<string>)
    | DeckOut(text: string)
    | Separator
    | LoopFailure(error: string)
    | Stopped

  /** What the scanner prints after announcing a detected pair. */
  function LookupLines(o: Lookup, clanText: string): (ls: seq<Line>)
    ensures Separator in ls <==> o.Found?
    ensures forall l :: l in ls ==> !l.Detected? && !l.Readout? && !l.Stopped?
    ensures o.Found? ==> ls[0].DeckOut? && |ls| == 2
    ensures !o.Found? ==> |ls| == 1
    ensures o.ClanUnclear? ==> ls == [ClanSuggestions(o.suggestions)]
    ensures o.PlayerMissing? ==> ls == [MemberSuggestions(o.members)]
    ensures o.ApiError? ==> ls == [LoopFailure(o.error)]
    ensures o.Found? ==> ls[0] == DeckOut(DeckText(o.player, Some(if o.clanDisplay != "" then o.clanDisplay else clanText)))
  {
    match o
    case ClanUnclear(s) => [ClanSuggestions(s)]
    case PlayerMissing(m) => [MemberSuggestions(m)]
    case Found(p, display) => [DeckOut(DeckText(p, Some(if display != "" then display else clanText))), Separator]
    case ApiError(e) => [LoopFailure(e)]
  }

  /** The lookup of a detected pair as the loop runs it: the clan search, the
      roster search and the profile request, each of which may raise, with
      an early exit after a miss. */
  method ResolveAndShow(dir: Directory, ratio: (string, string) -> real, name: string, clan: string)
    returns (lines: seq<Line>)
    ensures lines == LookupLines(LookUp(dir, ratio, name, clan), clan)
  {
    var cr := ResolveClanVia(dir, clan);
    if cr.Raised? {
      return [LoopFailure(cr.error)];
    }
    lines := ShowInClan(dir, ratio, name, clan, cr.value);
  }

  /** `ResolveAndShow` after the clan search answered with `cr`. */
  method ShowInClan(dir: Directory, ratio: (string, string) -> real, name: string, clan: string, cr: Resolution)
    returns (lines: seq<Line>)
    ensures lines == LookupLines(LookUpInClan(dir, ratio, name, cr), clan)
  {
    if cr.tag.None? {
      return [ClanSuggestions(Prefix(cr.suggestions, ClanSuggestionCount))];
    }
    var pr := ResolvePlayerVia(dir, cr.tag.value, name, ratio);
    if pr.Raised? {
      return [LoopFailure(pr.error)];
    }
    lines := ShowProfile(dir, clan, cr.display, pr.value);
  }

  /** `ResolveAndShow` after the roster search answered with `pr`. */
  method ShowProfile(dir: Directory, clan: string, clanDisplay: string, pr: Resolution)
    returns (lines: seq<Line>)
    ensures lines == LookupLines(LookUpProfile(dir, clanDisplay, pr), clan)
  {
    if pr.tag.None? {
      return [MemberSuggestions(Prefix(pr.suggestions, RosterSuggestionCount))];
    }
    var pdata := dir.player(PlayerPath(pr.tag.value));
    if pdata.Raised? {
      return [LoopFailure(pdata.error)];
    }
    var shownClan := if clanDisplay != "" then clanDisplay else clan;
    var out := FmtPlayerDeck(pdata.value, Some(shownClan));
    lines := [DeckOut(out), Separator];
  }

  /** The pair a frame contributes to the tracker, if it was grabbed. */
  function FrameObservation(f: Frame): Option<Pair>
    requires f.Grabbed?
  {
    Observe(f.name, f.clan, ScanConfMin)
  }

  /** The tracker after one frame (a failed frame leaves it unchanged). */
  function FrameState(t: Tracker, f: Frame): Tracker
  {
    if f.Grabbed? then Advance(t, FrameObservation(f), ScanStableNeed).next else t
  }

  /** The lines one frame prints. */
  function FrameLines(t: Tracker, f: Frame, ratio: (string, string) -> real): seq<Line>
  {
    match f
    case Interrupted => [Stopped]
    case GrabFailed(e) => [LoopFailure(e)]
    case Grabbed(name, clan, dir) =>
      [Readout(name, clan)] +
      (if Advance(t, FrameObservation(f), ScanStableNeed).resolve then
         [Detected(Pair(name.text, clan.text), (name.conf + clan.conf) / 2.0)] +
         LookupLines(LookUp(dir, ratio, name.text, clan.text), clan.text)
       else [])
  }

  /** Everything the loop prints over a sequence of frames; it stops at the
      first interrupt. */
  function LoopLines(t: Tracker, frames: seq<Frame>, ratio: (string, string) -> real): seq<Line>
    decreases |frames|
  {
    if frames == [] then []
    else if frames[0].Interrupted? then [Stopped]
    else FrameLines(t, frames[0], ratio) + LoopLines(FrameState(t, frames[0]), frames[1..], ratio)
  }

  /** The frames' observations up to the first interrupt (failed frames
      contribute none). */
  function Observations(frames: seq<Frame>): (obs: seq<Option<Pair>>)
    ensures |obs| <= |frames|
  {
    if frames == [] || frames[0].Interrupted? then []
    else (if frames[0].Grabbed? then [FrameObservation(frames[0])] else []) + Observations(frames[1..])
  }

  /** The scanner's main loop over the frames it is given. */
  method ScanLoop(region: Region, frames: seq<Frame>, ratio: (string, string) -> real)
    returns (out: seq<Line>)
    ensures out == [Started(region)] + LoopLines(Initial, frames, ratio)
  {
    var lastPair := Pair("", "");
    var stable := 0;
    var lastResolved: Option<Pair> := None;
    out := [Started(region)];
    ghost var total := out + LoopLines(Initial, frames, ratio);
    for i := 0 to |frames|
      invariant out + LoopLines(Tracker(lastPair, stable, lastResolved), frames[i..], ratio) == total
    {
      ghost var t := Tracker(lastPair, stable, lastResolved);
      ghost var before := out;
      LoopLinesStep(t, frames, i, ratio);
      var f := frames[i];
      if f.Interrupted? {
        out := out + [Stopped];
        break;
      }
      if f.GrabFailed? {
        out := out + [LoopFailure(f.error)];
        continue;
      }
      var lines;
      lastPair, stable, lastResolved, lines := ScanPass(lastPair, stable, lastResolved, f.name, f.clan, f.dir, ratio);
      out := out + lines;
      assert Tracker(lastPair, stable, lastResolved) == FrameState(t, f);
      assert out == before + FrameLines(t, f, ratio);
    }
  }

  /** One pass of the loop over a grabbed frame: the readout, the gate, the
      stability count and, for a stable new pair, its announcement and lookup. */
  method ScanPass(lastPair0: Pair, stable0: int, lastResolved0: Option<Pair>,
                  name: Reading, clan: Reading, dir: Directory, ratio: (string, string) -> real)
    returns (lastPair: Pair, stable: int, lastResolved: Option<Pair>, out: seq<Line>)
    ensures var t := Tracker(lastPair0, stable0, lastResolved0);
      Tracker(lastPair, stable, lastResolved) == FrameState(t, Grabbed(name, clan, dir)) &&
      out == FrameLines(t, Grabbed(name, clan, dir), ratio)
  {
    var resolve;
    lastPair, stable, lastResolved, resolve := GateAndCount(lastPair0, stable0, lastResolved0, name, clan);
    out := [Readout(name, clan)];
    if resolve {
      var lines := ResolveAndShow(dir, ratio, name.text, clan.text);
      out := out + [Detected(Pair(name.text, clan.text), (name.conf + clan.conf) / 2.0)] + lines;
    }
  }

  /** The gate and the stability count of one pass: the new tracker fields and
      whether this frame's pair is announced and looked up. */
  method GateAndCount(lastPair0: Pair, stable0: int, lastResolved0: Option<Pair>, name: Reading, clan: Reading)
    returns (lastPair: Pair, stable: int, lastResolved: Option<Pair>, resolve: bool)
    ensures Step(Tracker(lastPair, stable, lastResolved), resolve) ==
            Advance(Tracker(lastPair0, stable0, lastResolved0), Observe(name, clan, ScanConfMin), ScanStableNeed)
  {
    lastPair, stable, lastResolved, resolve := lastPair0, stable0, lastResolved0, false;
    if Plausible(name.text, MinPlausibleLength) && Plausible(clan.text, MinPlausibleLength) &&
       name.conf >= ScanConfMin && clan.conf >= ScanConfMin {
      var pair := Pair(name.text, clan.text);
      assert Observe(name, clan, ScanConfMin) == Some(pair);
      if pair == lastPair {
        stable := stable + 1;
      } else {
        stable := 1;
        lastPair := pair;
      }
      if stable >= ScanStableNeed && lastResolved != Some(pair) {
        lastResolved := Some(pair);
        resolve := true;
      }
    } else {
      assert Observe(name, clan, ScanConfMin) == None;
      stable := 0;
    }
  }

  /** One frame of `LoopLines`. */
  lemma LoopLinesStep(t: Tracker, frames: seq<Frame>, i: nat, ratio: (string, string) -> real)
    requires i < |frames|
    ensures frames[i].Interrupted? ==> LoopLines(t, frames[i..], ratio) == [Stopped]
    ensures !frames[i].Interrupted? ==>
              LoopLines(t, frames[i..], ratio) ==
              FrameLines(t, frames[i], ratio) + LoopLines(FrameState(t, frames[i]), frames[i + 1..], ratio)
  {
    assert frames[i..][0] == frames[i];
    assert frames[i..][1..] == frames[i + 1..];
  }

  /** `main` after the configuration is read: the capture region, then the
      loop; a configured region that does not unpack ends the program before
      anything is printed. */
  method ScanMain(cap: Option<seq<int>>, roiName: Roi, roiClan: Roi, frames: seq<Frame>,
                  ratio: (string, string) -> real)
    returns (out: seq<Line>)
    ensures CaptureRegion(cap, roiName, roiClan).None? ==> out == []
    ensures CaptureRegion(cap, roiName, roiClan).Some? ==>
              out == [Started(CaptureRegion(cap, roiName, roiClan).value)] + LoopLines(Initial, frames, ratio)
  {
    var region: Region;
    if cap.Some? && cap.value != [] {
      if |cap.value| != 4 {
        return [];
      }
      region := Region(cap.value[0], cap.value[1], cap.value[2], cap.value[3]);
    } else {
      region := BoundingRegion(roiName, roiClan);
    }
    out := ScanLoop(region, frames, ratio);
  }

  // ------------------------------------------------------------------
  // What the loop's output shows
  // ------------------------------------------------------------------

  /** The pairs announced as detected, in order. */
  function Detections(lines: seq<Line>): seq<Pair>
  {
    if lines == [] then []
    else (if lines[0].Detected? then [lines[0].pair] else []) + Detections(lines[1..])
  }

  lemma {:induction false} DetectionsAppend(a: seq<Line>, b: seq<Line>)
    ensures Detections(a + b) == Detections(a) + Detections(b)
  {
    if a == [] {
      assert a + b == b;
    } else {
      assert (a + b)[0] == a[0];
      assert (a + b)[1..] == a[1..] + b;
      DetectionsAppend(a[1..], b);
    }
  }

  /** A frame announces a pair exactly when the tracker looks it up. */
  lemma FrameDetections(t: Tracker, f: Frame, ratio: (string, string) -> real)
    requires !f.Interrupted?
    ensures Detections(FrameLines(t, f, ratio)) ==
              if f.Grabbed? && Advance(t, FrameObservation(f), ScanStableNeed).resolve
              then [FrameObservation(f).value] else []
  {
    match f
    case GrabFailed(e) =>
      assert Detections([LoopFailure(e)]) == [] + Detections([]);
    case Grabbed(name, clan, dir) =>
      var step := Advance(t, FrameObservation(f), ScanStableNeed);
      if step.resolve {
        var pair := Pair(name.text, clan.text);
        var rest := LookupLines(LookUp(dir, ratio, name.text, clan.text), clan.text);
        NoDetectionsIn(rest);
        DetectionsAppend([Readout(name, clan)], [Detected(pair, (name.conf + clan.conf) / 2.0)] + rest);
        DetectionsAppend([Detected(pair, (name.conf + clan.conf) / 2.0)], rest);
        assert Detections([Readout(name, clan)]) == [] + Detections([]);
        assert Detections([Detected(pair, (name.conf + clan.conf) / 2.0)]) == [pair] + Detections([]);
      } else {
        assert FrameLines(t, f, ratio) == [Readout(name, clan)];
        assert Detections([Readout(name, clan)]) == [] + Detections([]);
      }
  }

  lemma {:induction false} NoDetectionsIn(lines: seq<Line>)
    requires forall l :: l in lines ==> !l.Detected?
    ensures Detections(lines) == []
  {
    if lines != [] {
      assert lines[0] in lines;
      assert forall l :: l in lines[1..] ==> l in lines;
      NoDetectionsIn(lines[1..]);
    }
  }

  /** The tracker the loop ends with is the shared tracker replayed over the
      observations. */
  lemma {:induction false} LoopStateIsReplay(t: Tracker, frames: seq<Frame>)
    ensures LoopTracker(t, frames) == Replay(t, Observations(frames), ScanStableNeed)
    decreases |frames|
  {
    if frames != [] && !frames[0].Interrupted? {
      LoopStateIsReplay(FrameState(t, frames[0]), frames[1..]);
      if frames[0].Grabbed? {
        assert Observations(frames)[0] == FrameObservation(frames[0]);
        assert Observations(frames)[1..] == Observations(frames[1..]);
      } else {
        assert Observations(frames) == Observations(frames[1..]);
      }
    }
  }

  /** The tracker after the frames up to the first interrupt. */
  function LoopTracker(t: Tracker, frames: seq<Frame>): Tracker
    decreases |frames|
  {
    if frames == [] || frames[0].Interrupted? then t
    else LoopTracker(FrameState(t, frames[0]), frames[1..])
  }

  /** The pairs the loop announces are exactly the tracker's lookups over the
      observed frames, whatever the lookups return. */
  lemma {:induction false} DetectionsAreResolutions(t: Tracker, frames: seq<Frame>, ratio: (string, string) -> real)
    ensures Detections(LoopLines(t, frames, ratio)) == Resolutions(t, Observations(frames), ScanStableNeed)
    decreases |frames|
  {
    if frames != [] {
      var f := frames[0];
      if f.Interrupted? {
        assert Detections([Stopped]) == [] + Detections([]);
      } else {
        var rest := frames[1..];
        DetectionsAreResolutions(FrameState(t, f), rest, ratio);
        DetectionsAppend(FrameLines(t, f, ratio), LoopLines(FrameState(t, f), rest, ratio));
        FrameDetections(t, f, ratio);
        if f.Grabbed? {
          assert Observations(frames) == [FrameObservation(f)] + Observations(rest);
          assert Observations(frames)[0] == FrameObservation(f);
          assert Observations(frames)[1..] == Observations(rest);
        } else {
          assert Observations(frames) == [] + Observations(rest);
          assert Observations(frames) == Observations(rest);
          assert FrameState(t, f) == t;
          assert Detections(FrameLines(t, f, ratio)) == [];
        }
      }
    }
  }

  /** A pair is never announced twice in a row: a clan miss, a player miss
      or a failed request does not make the next frame retry it. */
  lemma NoRepeatedDetection(frames: seq<Frame>, ratio: (string, string) -> real)
    ensures var d := Detections(LoopLines(Initial, frames, ratio));
      forall i :: 0 <= i < |d| - 1 ==> d[i] != d[i + 1]
  {
    DetectionsAreResolutions(Initial, frames, ratio);
    LookupsNeverRepeatBackToBack(Initial, Observations(frames), ScanStableNeed);
  }

  /** Once a pair has been looked up, frames that keep showing it (or that
      the gate rejects) announce nothing, whatever the lookup returned. */
  lemma {:induction false} ResolvedPairStaysQuiet(t: Tracker, frames: seq<Frame>, p: Pair, ratio: (string, string) -> real)
    requires t.lastResolved == Some(p)
    requires forall i :: 0 <= i < |frames| && frames[i].Grabbed? ==>
               FrameObservation(frames[i]) == None || FrameObservation(frames[i]) == Some(p)
    ensures Detections(LoopLines(t, frames, ratio)) == []
    decreases |frames|
  {
    DetectionsAreResolutions(t, frames, ratio);
    ObservationsOf(frames, p);
    SamePairAtMostOnce(t, Observations(frames), p, ScanStableNeed);
  }

  lemma {:induction false} ObservationsOf(frames: seq<Frame>, p: Pair)
    requires forall i :: 0 <= i < |frames| && frames[i].Grabbed? ==>
               FrameObservation(frames[i]) == None || FrameObservation(frames[i]) == Some(p)
    ensures forall i :: 0 <= i < |Observations(frames)| ==>
              Observations(frames)[i] == None || Observations(frames)[i] == Some(p)
  {
    if frames != [] && !frames[0].Interrupted? {
      ObservationsOf(frames[1..], p);
    }
  }

  /** Frames after the first interrupt are never looked at. */
  lemma {:induction false} InterruptEndsLoop(t: Tracker, frames: seq<Frame>, k: nat, ratio: (string, string) -> real)
    requires k < |frames| && frames[k].Interrupted?
    ensures LoopLines(t, frames, ratio) == LoopLines(t, frames[..k + 1], ratio)
    ensures |LoopLines(t, frames, ratio)| > 0
    ensures LoopLines(t, frames, ratio)[|LoopLines(t, frames, ratio)| - 1] == Stopped
    decreases |frames|
  {
    assert frames[..k + 1][0] == frames[0];
    if !frames[0].Interrupted? {
      assert k > 0;
      assert frames[..k + 1][1..] == frames[1..][..k];
      InterruptEndsLoop(FrameState(t, frames[0]), frames[1..], k - 1, ratio);
    }
  }
}
