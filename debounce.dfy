/** The stability tracker both front ends run on every captured frame: a
    reading pair has to pass the plausibility and confidence gate, repeated
    pairs build up a stability count, and a pair is looked up once it is
    stable enough and differs from the last pair looked up. */
module Debounce {
  import opened Py
  import opened Ocr

  /** An (opponent name, clan name) reading pair. */
  datatype Pair = Pair(name: string, clan: string)

  /** `last_pair`, `stable` and `last_resolved`. */
  datatype Tracker = Tracker(lastPair: Pair, stable: int, lastResolved: Option<Pair>)

  /** The state before the first frame. */
  const Initial: Tracker := Tracker(Pair("", ""), 0, None)

  /** The gate: both readings plausible and both confident enough. */
  predicate Passes(name: Reading, clan: Reading, confMin: real)
  {
    Plausible(name.text, MinPlausibleLength) && Plausible(clan.text, MinPlausibleLength) &&
    name.conf >= confMin && clan.conf >= confMin
  }

  /** The pair a frame contributes, or None when the gate rejects it. */
  function Observe(name: Reading, clan: Reading, confMin: real): (obs: Option<Pair>)
    ensures obs.Some? <==> Passes(name, clan, confMin)
    ensures obs.Some? ==> obs.value == Pair(name.text, clan.text)
  {
    if Passes(name, clan, confMin) then Some(Pair(name.text, clan.text)) else None
  }

  /** The tracker after one frame and whether that frame starts a lookup. */
  datatype Step = Step(next: Tracker, resolve: bool)

  /** One frame of the tracker. */
  function Advance(t: Tracker, obs: Option<Pair>, need: int): (s: Step)
    ensures obs.None? ==> s.next == t.(stable := 0) && !s.resolve
    ensures obs.Some? ==> s.next.lastPair == obs.value
    ensures obs.Some? && obs.value == t.lastPair ==> s.next.stable == t.stable + 1
    ensures obs.Some? && obs.value != t.lastPair ==> s.next.stable == 1
    ensures s.resolve <==> obs.Some? && s.next.stable >= need && t.lastResolved != obs
    ensures s.resolve ==> s.next.lastResolved == obs
    ensures !s.resolve ==> s.next.lastResolved == t.lastResolved
  {
    match obs
    case None => Step(t.(stable := 0), false)
    case Some(pair) =>
      var stable := if pair == t.lastPair then t.stable + 1 else 1;
      if stable >= need && t.lastResolved != Some(pair) then
        Step(Tracker(pair, stable, Some(pair)), true)
      else
        Step(Tracker(pair, stable, t.lastResolved), false)
  }

  /** The tracker after a sequence of frames. */
  function Replay(t: Tracker, obs: seq<Option<Pair>>, need: int): Tracker
    decreases |obs|
  {
    if obs == [] then t else Replay(Advance(t, obs[0], need).next, obs[1..], need)
  }

  /** The pairs looked up during a sequence of frames, in order. */
  function Resolutions(t: Tracker, obs: seq<Option<Pair>>, need: int): seq<Pair>
    decreases |obs|
  {
    if obs == [] then []
    else
      var s := Advance(t, obs[0], need);
      (if s.resolve then [obs[0].value] else []) + Resolutions(s.next, obs[1..], need)
  }

  /** Replaying one more frame is one more `Advance`. */
  lemma {:induction false} ReplaySnoc(t: Tracker, obs: seq<Option<Pair>>, o: Option<Pair>, need: int)
    ensures Replay(t, obs + [o], need) == Advance(Replay(t, obs, need), o, need).next
    ensures Resolutions(t, obs + [o], need) ==
              Resolutions(t, obs, need) + (if Advance(Replay(t, obs, need), o, need).resolve then [o.value] else [])
    decreases |obs|
  {
    if obs != [] {
      assert (obs + [o])[0] == obs[0];
      assert (obs + [o])[1..] == obs[1..] + [o];
      ReplaySnoc(Advance(t, obs[0], need).next, obs[1..], o, need);
    } else {
      assert obs + [o] == [o];
    }
  }

  /** Every frame leaves `last_resolved` at the last pair looked up. */
  lemma {:induction false} LastResolvedIsLastLookup(t: Tracker, obs: seq<Option<Pair>>, need: int)
    ensures var r := Resolutions(t, obs, need);
      Replay(t, obs, need).lastResolved == (if r == [] then t.lastResolved else Some(r[|r| - 1]))
    decreases |obs|
  {
    if obs != [] {
      LastResolvedIsLastLookup(Advance(t, obs[0], need).next, obs[1..], need);
    }
  }

  /** A lookup never repeats the pair looked up just before it (or, for the
      first lookup, the pair already recorded as resolved). */
  lemma {:induction false} LookupsNeverRepeatBackToBack(t: Tracker, obs: seq<Option<Pair>>, need: int)
    ensures var r := Resolutions(t, obs, need);
      (r != [] ==> t.lastResolved != Some(r[0])) &&
      (forall i :: 0 <= i < |r| - 1 ==> r[i] != r[i + 1])
    decreases |obs|
  {
    if obs != [] {
      var s := Advance(t, obs[0], need);
      LookupsNeverRepeatBackToBack(s.next, obs[1..], need);
      var rest := Resolutions(s.next, obs[1..], need);
      if s.resolve {
        assert Resolutions(t, obs, need) == [obs[0].value] + rest;
        assert s.next.lastResolved == Some(obs[0].value);
      }
    }
  }

  /** While a single pair is on screen (every frame either shows it or is
      gated out) it is looked up at most once, and not at all when it was
      already the last pair resolved. */
  lemma {:induction false} SamePairAtMostOnce(t: Tracker, obs: seq<Option<Pair>>, p: Pair, need: int)
    requires forall i :: 0 <= i < |obs| ==> obs[i] == None || obs[i] == Some(p)
    ensures |Resolutions(t, obs, need)| <= 1
    ensures t.lastResolved == Some(p) ==> Resolutions(t, obs, need) == []
    decreases |obs|
  {
    if obs != [] {
      var s := Advance(t, obs[0], need);
      SamePairAtMostOnce(s.next, obs[1..], p, need);
      if s.resolve {
        assert s.next.lastResolved == Some(p);
      }
    }
  }

  /** `k` consecutive frames showing a new pair `p` leave `stable == k`. */
  lemma {:induction false} StableCountsRepeats(t: Tracker, p: Pair, k: nat, need: int)
    requires k >= 1 && t.lastPair != p
    ensures Replay(t, seq(k, _ => Some(p)), need).stable == k
    ensures Replay(t, seq(k, _ => Some(p)), need).lastPair == p
  {
    if k > 1 {
      var obs := seq(k, _ => Some(p));
      var prefix := seq(k - 1, _ => Some(p));
      assert obs == prefix + [Some(p)];
      StableCountsRepeats(t, p, k - 1, need);
      ReplaySnoc(t, prefix, Some(p), need);
    }
  }

  /** With the front ends' stability need of 1, a new gated-in pair is looked
      up on the very frame it first appears. */
  lemma NewPairResolvedAtOnce(t: Tracker, p: Pair)
    requires t.stable >= 0 && t.lastResolved != Some(p)
    ensures Advance(t, Some(p), 1).resolve
  {
  }

  /** The stability count is never negative. */
  lemma {:induction false} StableNonNegative(t: Tracker, obs: seq<Option<Pair>>, need: int)
    requires t.stable >= 0
    ensures Replay(t, obs, need).stable >= 0
    decreases |obs|
  {
    if obs != [] {
      StableNonNegative(Advance(t, obs[0], need).next, obs[1..], need);
    }
  }
}
