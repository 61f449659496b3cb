/** The deterministic part of the window front end: the ladder-battle
    filter, the per-deck figures it shows (four-card cycle, favourite card,
    icon choice, win/loss tally over recent ladder battles), the history
    window and similarity summary of `show_deck`, and the scanner thread's
    per-frame state machine and the events it queues for the window. */
module Ui {
  import opened Py
  import opened Text
  import opened CrApi
  import opened Ocr
  import opened Debounce

  // ------------------------------------------------------------------
  // Ladder / ranked 1v1 filter
  // ------------------------------------------------------------------

  /** Game-mode fragments that rule a battle out. */
  const ExcludedModes: seq<string> := ["river", "boat", "clan war"]

  /** Game-mode fragments of which one has to appear. */
  const LadderModes: seq<string> := ["ranked", "path of legends", "ladder", "trophy road", "league"]

  /** `any(k in hay for k in keys)` */
  predicate MentionsAny(hay: string, keys: seq<string>)
  {
    keys != [] && (Contains(hay, keys[0]) || MentionsAny(hay, keys[1..]))
  }

  /** `MentionsAny` holds exactly when some fragment occurs. */
  lemma {:induction false} MentionsAnySome(hay: string, keys: seq<string>)
    ensures MentionsAny(hay, keys) <==> exists i :: 0 <= i < |keys| && Contains(hay, keys[i])
  {
    if keys != [] {
      MentionsAnySome(hay, keys[1..]);
      assert forall i :: 1 <= i < |keys| ==> keys[i] == keys[1..][i - 1];
    }
  }

  /** The lower-cased game-mode name (`""` when missing). */
  function ModeName(b: Battle): string
  {
    Lower(OrElse(b.gameMode, ""))
  }

  /** A challenge id, a challenge title or the friendly flag is set. */
  predicate ChallengeOrFriendly(b: Battle)
  {
    (b.challengeId.Some? && b.challengeId.value != 0) || Truthy(b.challengeTitle) || b.isFriendly
  }

  /** `_is_ranked_or_trophy_pvp_1v1`: a 1v1 PvP battle, not a draft, not a
      challenge or friendly, not a clan-war mode, in a ladder-like mode. */
  function IsLadderBattle(b: Battle): (ok: bool)
    ensures ok ==> Lower(OrElse(b.kind, "")) == "pvp"
    ensures ok ==> |b.team| == 1 && |b.opponent| == 1
    ensures ok ==> !Contains(Lower(OrElse(b.deckSelection, "")), "draft")
    ensures ok ==> !ChallengeOrFriendly(b)
    ensures ok ==> !MentionsAny(ModeName(b), ExcludedModes)
    ensures ok ==> MentionsAny(ModeName(b), LadderModes)
    ensures (Lower(OrElse(b.kind, "")) == "pvp" && |b.team| == 1 && |b.opponent| == 1 &&
             !Contains(Lower(OrElse(b.deckSelection, "")), "draft") && !ChallengeOrFriendly(b) &&
             !MentionsAny(ModeName(b), ExcludedModes) && MentionsAny(ModeName(b), LadderModes)) ==> ok
  {
    if Lower(OrElse(b.kind, "")) != "pvp" then false
    else if |b.team| != 1 || |b.opponent| != 1 then false
    else
      var gm := ModeName(b);
      var ds := Lower(OrElse(b.deckSelection, ""));
      if Contains(ds, "draft") then false
      else if ChallengeOrFriendly(b) then false
      else if MentionsAny(gm, ExcludedModes) then false
      else MentionsAny(gm, LadderModes)
  }

  /** The filter ignores ASCII case in the battle type, the game-mode name
      and the deck selection: lower-casing them first changes nothing. */
  lemma LadderIgnoresCase(b: Battle)
    ensures IsLadderBattle(b.(kind := Some(Lower(OrElse(b.kind, ""))),
                              gameMode := Some(ModeName(b)),
                              deckSelection := Some(Lower(OrElse(b.deckSelection, ""))))) == IsLadderBattle(b)
  {
    LowerIdempotent(OrElse(b.kind, ""));
    LowerIdempotent(OrElse(b.gameMode, ""));
    LowerIdempotent(OrElse(b.deckSelection, ""));
  }

  // ------------------------------------------------------------------
  // Four-card cycle
  // ------------------------------------------------------------------

  /** `c.get("elixirCost", c.get("elixir"))` when it is a number. */
  function CardCost(c: Card): Option<int>
  {
    if c.elixirCost.Some? then c.elixirCost else c.elixir
  }

  /** The costs of the cards that have one, in deck order. */
  function Costs(deck: seq<Card>): (cs: seq<int>)
    ensures |cs| <= |deck|
  {
    if deck == [] then []
    else
      var last := deck[|deck| - 1];
      Costs(deck[..|deck| - 1]) + (if CardCost(last).Some? then [CardCost(last).value] else [])
  }

  predicate IsSorted(s: seq<int>)
  {
    forall i, j :: 0 <= i < j < |s| ==> s[i] <= s[j]
  }

  /** Inserts `x` into a sorted list. */
  function Insert(x: int, s: seq<int>): (r: seq<int>)
    requires IsSorted(s)
    ensures IsSorted(r)
    ensures multiset(r) == multiset(s) + multiset{x}
    ensures forall i :: 0 <= i < |r| ==> r[i] == x || r[i] in s
  {
    if s == [] then [x]
    else if x <= s[0] then [x] + s
    else
      var tail := Insert(x, s[1..]);
      InsertBehindHead(x, s, tail);
      [s[0]] + tail
  }

  /** The recursive case of `Insert`: putting the head back in front of the
      tail with `x` inserted keeps the list sorted and adds just `x`. */
  lemma InsertBehindHead(x: int, s: seq<int>, tail: seq<int>)
    requires IsSorted(s) && s != [] && s[0] < x
    requires IsSorted(tail) && multiset(tail) == multiset(s[1..]) + multiset{x}
    requires forall i :: 0 <= i < |tail| ==> tail[i] == x || tail[i] in s[1..]
    ensures IsSorted([s[0]] + tail)
    ensures multiset([s[0]] + tail) == multiset(s) + multiset{x}
    ensures forall i :: 0 <= i < |[s[0]] + tail| ==> ([s[0]] + tail)[i] == x || ([s[0]] + tail)[i] in s
  {
    assert s == [s[0]] + s[1..];
  }

  /** `sorted(xs)`, as an insertion sort: ordered and a permutation. */
  function Sorted(xs: seq<int>): (s: seq<int>)
    ensures IsSorted(s)
    ensures multiset(s) == multiset(xs)
    ensures |s| == |xs|
  {
    if xs == [] then []
    else
      assert xs == [xs[0]] + xs[1..];
      Insert(xs[0], Sorted(xs[1..]))
  }

  /** `sum(xs)` over integers. */
  function SumInts(xs: seq<int>): int
  {
    if xs == [] then 0 else xs[0] + SumInts(xs[1..])
  }

  /** `_four_card_cycle`: the total cost of the four cheapest cards, or 0
      when fewer than four cards have a cost. */
  method FourCardCycle(deck: seq<Card>) returns (cycle: int)
    ensures |Costs(deck)| < 4 ==> cycle == 0
    ensures |Costs(deck)| >= 4 ==> cycle == SumInts(Sorted(Costs(deck))[..4])
  {
    var costs: seq<int> := [];
    for i := 0 to |deck|
      invariant costs == Costs(deck[..i])
    {
      assert deck[..i + 1][..i] == deck[..i];
      var v := CardCost(deck[i]);
      if v.Some? {
        costs := costs + [v.value];
      }
    }
    assert deck[..|deck|] == deck;
    costs := Sorted(costs);
    cycle := if |costs| >= 4 then SumInts(costs[..4]) else 0;
  }

  /** The four costs summed are taken from the deck's costs, and none of them
      is dearer than a cost left out. */
  lemma CheapestFour(costs: seq<int>)
    requires |costs| >= 4
    ensures multiset(Sorted(costs)[..4]) <= multiset(costs)
    ensures forall i, j :: 0 <= i < 4 <= j < |costs| ==> Sorted(costs)[i] <= Sorted(costs)[j]
  {
    SortedPrefixSplit(Sorted(costs), costs);
  }

  /** The first four of any sorted rearrangement of `xs` are drawn from `xs`
      and precede the rest. */
  lemma SortedPrefixSplit(s: seq<int>, xs: seq<int>)
    requires IsSorted(s) && multiset(s) == multiset(xs) && |s| >= 4
    ensures multiset(s[..4]) <= multiset(xs)
    ensures forall i, j :: 0 <= i < 4 <= j < |s| ==> s[i] <= s[j]
  {
    assert s == s[..4] + s[4..];
    assert multiset(s) == multiset(s[..4]) + multiset(s[4..]);
  }

  // ------------------------------------------------------------------
  // Favourite card and icon choice
  // ------------------------------------------------------------------

  /** `_favorite_card`: the profile's favourite card, otherwise the first
      card of the current deck, otherwise nothing. */
  function FavoriteCard(p: Player): (c: Option<Card>)
    ensures p.currentFavouriteCard.Some? ==> c == p.currentFavouriteCard
    ensures c.None? <==> p.currentFavouriteCard.None? && p.currentDeck == []
    ensures c.Some? && p.currentFavouriteCard.None? ==> c.value == p.currentDeck[0]
  {
    if p.currentFavouriteCard.Some? then p.currentFavouriteCard
    else if p.currentDeck != [] then Some(p.currentDeck[0])
    else None
  }

  /** The icon sizes in order of preference. */
  const IconSizes: seq<string> := ["medium", "evolutionMedium", "evolutionSmall", "large", "small"]

  /** `icon.get(k)` is truthy. */
  predicate HasIcon(icons: map<string, string>, k: string)
  {
    k in icons && icons[k] != ""
  }

  /** `_find_icon_url`: the URL of the first preferred size that is present
      and not empty, or nothing when there is none (or no card). */
  method FindIconUrl(card: Option<Card>) returns (url: Option<string>)
    ensures var icons := if card.Some? then card.value.iconUrls else map[];
      url.Some? <==> exists i :: 0 <= i < |IconSizes| && HasIcon(icons, IconSizes[i])
    ensures var icons := if card.Some? then card.value.iconUrls else map[];
      url.Some? ==>
        exists i :: 0 <= i < |IconSizes| && HasIcon(icons, IconSizes[i]) &&
          url.value == icons[IconSizes[i]] &&
          forall j :: 0 <= j < i ==> !HasIcon(icons, IconSizes[j])
  {
    var icons := if card.Some? then card.value.iconUrls else map[];
    var i := 0;
    while i < |IconSizes|
      invariant 0 <= i <= |IconSizes|
      invariant forall j :: 0 <= j < i ==> !HasIcon(icons, IconSizes[j])
    {
      if HasIcon(icons, IconSizes[i]) {
        return Some(icons[IconSizes[i]]);
      }
      i := i + 1;
    }
    return None;
  }

  // ------------------------------------------------------------------
  // Win/loss tally over the last ladder battles
  // ------------------------------------------------------------------

  /** Wins, losses and crowns summed over some battles. */
  datatype Tally = Tally(wins: nat, losses: nat, crownsFor: int, crownsAgainst: int)

  /** What `_pvp_stats_last_n` returns. */
  datatype PvpStats = PvpStats(wins: nat, losses: nat, winRate: real, crownsFor: int, crownsAgainst: int)

  /** The crowns of a side's first participant, 0 when the side or the
      entry is missing. */
  function SideCrowns(side: seq<Participant>): int
  {
    if side == [] then 0 else GetOr(side[0].crowns, 0)
  }

  /** The tally of `bs`: a battle is won when the player's side has more
      crowns, lost when it has fewer, and neither on a draw. */
  function TallyOf(bs: seq<Battle>): (t: Tally)
    ensures t.wins + t.losses <= |bs|
  {
    if bs == [] then Tally(0, 0, 0, 0)
    else
      var t := TallyOf(bs[..|bs| - 1]);
      var cf := SideCrowns(bs[|bs| - 1].team);
      var ca := SideCrowns(bs[|bs| - 1].opponent);
      Tally(t.wins + (if cf > ca then 1 else 0), t.losses + (if cf < ca then 1 else 0),
            t.crownsFor + cf, t.crownsAgainst + ca)
  }

  /** `wins / (wins + losses)`, 0.0 without a decided battle. */
  function WinRate(wins: nat, losses: nat): (wr: real)
    ensures 0.0 <= wr <= 1.0
    ensures wins + losses == 0 ==> wr == 0.0
    ensures wins + losses > 0 && losses == 0 ==> wr == 1.0
    ensures wins + losses > 0 && wins == 0 ==> wr == 0.0
    ensures wins + losses > 0 ==> wr * (wins + losses) as real == wins as real
  {
    if wins + losses == 0 then 0.0 else wins as real / (wins + losses) as real
  }

  /** The figures of a tally. */
  function StatsOf(bs: seq<Battle>): PvpStats
  {
    var t := TallyOf(bs);
    PvpStats(t.wins, t.losses, WinRate(t.wins, t.losses), t.crownsFor, t.crownsAgainst)
  }

  /** `_pvp_stats_last_n(battles, n)`: one pass over `battles[:n]`. */
  method PvpStatsLastN(battles: seq<Battle>, n: int) returns (st: PvpStats)
    ensures st == StatsOf(Prefix(battles, n))
    ensures n >= 0 ==> st.wins + st.losses <= Min(n, |battles|)
  {
    var window := Prefix(battles, n);
    var wins: nat, losses: nat, crownsFor, crownsAgainst := 0, 0, 0, 0;
    for i := 0 to |window|
      invariant Tally(wins, losses, crownsFor, crownsAgainst) == TallyOf(window[..i])
    {
      assert window[..i + 1][..i] == window[..i];
      var cf := SideCrowns(window[i].team);
      var ca := SideCrowns(window[i].opponent);
      crownsFor := crownsFor + cf;
      crownsAgainst := crownsAgainst + ca;
      if cf > ca {
        wins := wins + 1;
      } else if cf < ca {
        losses := losses + 1;
      }
    }
    assert window[..|window|] == window;
    var wr := if wins + losses > 0 then wins as real / (wins + losses) as real else 0.0;
    st := PvpStats(wins, losses, wr, crownsFor, crownsAgainst);
  }

  /** Tallies add up over consecutive runs of battles. */
  lemma {:induction false} TallyAppend(a: seq<Battle>, b: seq<Battle>)
    ensures TallyOf(a + b).wins == TallyOf(a).wins + TallyOf(b).wins
    ensures TallyOf(a + b).losses == TallyOf(a).losses + TallyOf(b).losses
    ensures TallyOf(a + b).crownsFor == TallyOf(a).crownsFor + TallyOf(b).crownsFor
    ensures TallyOf(a + b).crownsAgainst == TallyOf(a).crownsAgainst + TallyOf(b).crownsAgainst
  {
    if b == [] {
      assert a + b == a;
    } else {
      assert (a + b)[..|a + b| - 1] == a + b[..|b| - 1];
      assert (a + b)[|a + b| - 1] == b[|b| - 1];
      TallyAppend(a, b[..|b| - 1]);
    }
  }

  /** A drawn battle changes only the crown totals. */
  lemma DrawIsNeitherWinNorLoss(bs: seq<Battle>, b: Battle)
    requires SideCrowns(b.team) == SideCrowns(b.opponent)
    ensures TallyOf(bs + [b]).wins == TallyOf(bs).wins
    ensures TallyOf(bs + [b]).losses == TallyOf(bs).losses
    ensures TallyOf(bs + [b]).crownsFor == TallyOf(bs).crownsFor + SideCrowns(b.team)
  {
    assert (bs + [b])[..|bs|] == bs;
  }

  /** A battle with fewer crowns on the player's side is one more loss and
      no win. */
  lemma FewerCrownsIsLoss(bs: seq<Battle>, b: Battle)
    requires SideCrowns(b.team) < SideCrowns(b.opponent)
    ensures TallyOf(bs + [b]).wins == TallyOf(bs).wins
    ensures TallyOf(bs + [b]).losses == TallyOf(bs).losses + 1
  {
    assert (bs + [b])[..|bs|] == bs;
  }

  /** Winning every battle of a non-empty window is a win rate of 1. */
  lemma {:induction false} AllWonIsPerfect(bs: seq<Battle>)
    requires forall i :: 0 <= i < |bs| ==> SideCrowns(bs[i].team) > SideCrowns(bs[i].opponent)
    ensures TallyOf(bs).wins == |bs| && TallyOf(bs).losses == 0
    ensures bs != [] ==> StatsOf(bs).winRate == 1.0
  {
    if bs != [] {
      AllWonIsPerfect(bs[..|bs| - 1]);
    }
  }

  // ------------------------------------------------------------------
  // show_deck: the ladder history and the similarity summary
  // ------------------------------------------------------------------

  /** `show_deck` stops collecting after this many historical decks. */
  const RecentDeckLimit: int := 10

  /** The ladder battles of `bs`, in order. */
  function LadderBattles(bs: seq<Battle>): (ls: seq<Battle>)
    ensures |ls| <= |bs|
  {
    if bs == [] then []
    else
      var last := bs[|bs| - 1];
      LadderBattles(bs[..|bs| - 1]) + (if IsLadderBattle(last) then [last] else [])
  }

  /** A battle is kept exactly when it is in the log and passes the filter. */
  lemma {:induction false} LadderBattlesMembership(bs: seq<Battle>, b: Battle)
    ensures b in LadderBattles(bs) <==> b in bs && IsLadderBattle(b)
  {
    if bs != [] {
      var init := bs[..|bs| - 1];
      LadderBattlesMembership(init, b);
      assert bs == init + [bs[|bs| - 1]];
    }
  }

  /** The player's non-empty card lists in `bs`, in order. */
  function CardDecks(bs: seq<Battle>, playerTag: string): (ds: seq<seq<Card>>)
    ensures |ds| <= |bs|
    ensures forall i :: 0 <= i < |ds| ==> ds[i] != []
  {
    if bs == [] then []
    else
      var cards := PlayerCards(bs[|bs| - 1], playerTag);
      CardDecks(bs[..|bs| - 1], playerTag) + (if cards != [] then [cards] else [])
  }

  lemma {:induction false} LadderBattlesAppend(a: seq<Battle>, b: seq<Battle>)
    ensures LadderBattles(a + b) == LadderBattles(a) + LadderBattles(b)
  {
    if b == [] {
      assert a + b == a;
    } else {
      assert (a + b)[..|a + b| - 1] == a + b[..|b| - 1];
      assert (a + b)[|a + b| - 1] == b[|b| - 1];
      LadderBattlesAppend(a, b[..|b| - 1]);
    }
  }

  lemma {:induction false} CardDecksAppend(a: seq<Battle>, b: seq<Battle>, playerTag: string)
    ensures CardDecks(a + b, playerTag) == CardDecks(a, playerTag) + CardDecks(b, playerTag)
  {
    if b == [] {
      assert a + b == a;
    } else {
      assert (a + b)[..|a + b| - 1] == a + b[..|b| - 1];
      assert (a + b)[|a + b| - 1] == b[|b| - 1];
      CardDecksAppend(a, b[..|b| - 1], playerTag);
    }
  }

  /** The history loop of `show_deck`: it skips non-ladder battles, keeps
      every ladder battle it reaches, keeps the player's non-empty card
      lists, and stops right after the tenth one. */
  method LadderHistory(battles: seq<Battle>, playerTag: string)
    returns (recent: seq<seq<Card>>, ladder: seq<Battle>)
    ensures var all := CardDecks(LadderBattles(battles), playerTag);
      recent == all[..Min(RecentDeckLimit, |all|)]
    ensures exists k :: 0 <= k <= |battles| && ladder == LadderBattles(battles[..k]) &&
              recent == CardDecks(ladder, playerTag)
    ensures |recent| < RecentDeckLimit ==> ladder == LadderBattles(battles)
    ensures |recent| == RecentDeckLimit ==>
              ladder != [] && PlayerCards(ladder[|ladder| - 1], playerTag) != []
  {
    recent, ladder := [], [];
    var i := 0;
    while i < |battles|
      invariant 0 <= i <= |battles|
      invariant ladder == LadderBattles(battles[..i])
      invariant recent == CardDecks(ladder, playerTag)
      invariant |recent| < RecentDeckLimit
    {
      LadderBattlesSnoc(battles, i);
      ladder, recent := HistoryStep(battles[i], ladder, recent, playerTag);
      i := i + 1;
      if |recent| >= RecentDeckLimit {
        break;
      }
    }
    HistoryOutcome(battles, playerTag, i, ladder, recent);
  }

  /** One battle of the history loop: a ladder battle is kept, and so are
      the player's cards in it when there are any. */
  method HistoryStep(b: Battle, ladder: seq<Battle>, recent: seq<seq<Card>>, playerTag: string)
    returns (ladder': seq<Battle>, recent': seq<seq<Card>>)
    requires recent == CardDecks(ladder, playerTag)
    ensures ladder' == ladder + (if IsLadderBattle(b) then [b] else [])
    ensures recent' == CardDecks(ladder', playerTag)
    ensures |recent'| <= |recent| + 1
    ensures |recent'| > |recent| ==> ladder' != [] && PlayerCards(ladder'[|ladder'| - 1], playerTag) != []
  {
    if !IsLadderBattle(b) {
      return ladder, recent;
    }
    CardDecksSnoc(ladder, b, playerTag);
    ladder' := ladder + [b];
    var cards := ExtractPlayerCards(b, playerTag);
    recent' := if cards != [] then recent + [cards] else recent;
  }

  /** Where the history loop stops, its results are the ten-deck window. */
  lemma HistoryOutcome(battles: seq<Battle>, playerTag: string, i: nat, ladder: seq<Battle>, recent: seq<seq<Card>>)
    requires i <= |battles| && ladder == LadderBattles(battles[..i]) && recent == CardDecks(ladder, playerTag)
    requires |recent| <= RecentDeckLimit && (i < |battles| ==> |recent| == RecentDeckLimit)
    ensures var all := CardDecks(LadderBattles(battles), playerTag);
      recent == all[..Min(RecentDeckLimit, |all|)]
    ensures exists k :: 0 <= k <= |battles| && ladder == LadderBattles(battles[..k]) &&
              recent == CardDecks(ladder, playerTag)
    ensures |recent| < RecentDeckLimit ==> ladder == LadderBattles(battles)
  {
    HistoryRest(battles, i, playerTag);
    if i == |battles| {
      assert battles[..i] == battles;
    }
  }

  lemma LadderBattlesSnoc(battles: seq<Battle>, i: nat)
    requires i < |battles|
    ensures LadderBattles(battles[..i + 1]) ==
              LadderBattles(battles[..i]) + (if IsLadderBattle(battles[i]) then [battles[i]] else [])
  {
    assert battles[..i + 1][..i] == battles[..i];
  }

  lemma CardDecksSnoc(bs: seq<Battle>, b: Battle, playerTag: string)
    ensures PlayerCards(b, playerTag) != [] ==>
              CardDecks(bs + [b], playerTag) == CardDecks(bs, playerTag) + [PlayerCards(b, playerTag)]
    ensures PlayerCards(b, playerTag) == [] ==> CardDecks(bs + [b], playerTag) == CardDecks(bs, playerTag)
  {
    assert (bs + [b])[..|bs|] == bs;
    assert CardDecks(bs, playerTag) + [] == CardDecks(bs, playerTag);
  }

  /** The decks of the whole log continue those of a prefix. */
  lemma HistoryRest(battles: seq<Battle>, i: nat, playerTag: string)
    requires i <= |battles|
    ensures var head := CardDecks(LadderBattles(battles[..i]), playerTag);
      var all := CardDecks(LadderBattles(battles), playerTag);
      |head| <= |all| && all[..|head|] == head &&
      (i == |battles| ==> all == head)
  {
    assert battles == battles[..i] + battles[i..];
    LadderBattlesAppend(battles[..i], battles[i..]);
    CardDecksAppend(LadderBattles(battles[..i]), LadderBattles(battles[i..]), playerTag);
    if i == |battles| {
      assert battles[..i] == battles;
    }
  }

  /** The card keys of each historical deck. */
  function RecentKeys(recent: seq<seq<Card>>): (ks: seq<seq<string>>)
    ensures |ks| == |recent|
    ensures forall i :: 0 <= i < |recent| ==> ks[i] == CardKeys(recent[i])
  {
    seq(|recent|, i requires 0 <= i < |recent| => CardKeys(recent[i]))
  }

  /** The similarity summary of `show_deck`: one similarity per historical
      deck, and the report only when there is at least one. */
  method ShowDeckStats(deck: seq<Card>, recent: seq<seq<Card>>) returns (report: Option<Report>)
    ensures report.None? <==> recent == []
    ensures report.Some? ==> report.value == DeckMatchReport(deck, RecentKeys(recent))
  {
    var sims := DeckSimilarities(deck, recent);
    if sims == [] {
      report := None;
    } else {
      SimilaritiesNonNegative(CardKeys(deck), RecentKeys(recent));
      var avg := Sum(sims) / |sims| as real;
      report := Some(Report(|sims|, avg, Largest(sims), CountAtLeast(sims, ExactThreshold)));
      assert report.value == Summary(sims);
    }
  }

  /** The loop of `show_deck` that scores the current deck against every
      historical deck in turn. */
  method DeckSimilarities(deck: seq<Card>, recent: seq<seq<Card>>) returns (sims: seq<real>)
    ensures sims == Similarities(CardKeys(deck), RecentKeys(recent))
  {
    var curKeys := DeckKeys(deck);
    var cur := KeySet(curKeys);
    sims := [];
    for i := 0 to |recent|
      invariant sims == Similarities(curKeys, RecentKeys(recent[..i]))
    {
      var pct := Overlap(cur, curKeys, recent[i]);
      SimilaritiesSnoc(curKeys, recent, i);
      sims := sims + [pct];
    }
    assert recent[..|recent|] == recent;
  }

  /** One more historical deck adds its similarity at the end. */
  lemma SimilaritiesSnoc(cur: seq<string>, recent: seq<seq<Card>>, i: nat)
    requires i < |recent|
    ensures Similarities(cur, RecentKeys(recent[..i + 1]))
         == Similarities(cur, RecentKeys(recent[..i])) + [DeckSimilarity(cur, CardKeys(recent[i]))]
  {
  }

  /** One step of that loop: the shared keys of one historical deck over the
      eight slots. */
  method Overlap(cur: set<string>, curKeys: seq<string>, rc: seq<Card>) returns (pct: real)
    requires cur == KeySet(curKeys)
    ensures pct == DeckSimilarity(curKeys, CardKeys(rc))
  {
    var hk := DeckKeys(rc);
    var inter := |cur * KeySet(hk)|;
    assert DeckSimilarity(curKeys, hk) * 8.0 == inter as real;
    pct := inter as real / 8.0;
  }

  // ------------------------------------------------------------------
  // The scanner thread
  // ------------------------------------------------------------------

  /** The texts of the status messages. */
  datatype Message =
    | ScanStarted
    | ScanStopped
    | Detected(pair: Pair)
    | ClanSuggestions(names: seq<string>)
    | MemberSuggestions(names: seq<string>)
    | ApiFailure(error: string)
    | LoopFailure(error: string)

  /** The messages the thread puts on its queue for the window. */
  datatype Event =
    | Status(msg: Message)
    | OcrLine(name: Reading, clan: Reading)
    | Loading(on: bool)
    | Resolved(pair: Pair)
    | DeckShown(player: Player)

  /** One pass of the loop: either the capture or the recognition raised,
      or the frame was captured and the recogniser's post-processed readings
      are `name` for the name region and `clanLine` / `clanBlock` for the
      clan region in single-line and block mode, and the directory answers
      as `dir` says. */
  datatype Tick =
    | Captured(name: Reading, clanLine: Reading, clanBlock: Reading, dir: Directory)
    | Failed(error: string)

  /** `ocr_clan` of a captured frame. */
  function ClanReadingOf(tk: Tick): Reading
    requires tk.Captured?
  {
    ClanReading(tk.clanLine, tk.clanBlock)
  }

  /** The tracker's view of a captured frame. */
  function TickObservation(tk: Tick, confMin: real): Option<Pair>
    requires tk.Captured?
  {
    Observe(tk.name, ClanReadingOf(tk), confMin)
  }

  /** The messages queued for a captured frame with readings `name` and
      `clan`, from tracker state `s`. */
  function FrameEvents(s: Tracker, name: Reading, clan: Reading, dir: Directory, confMin: real, need: int,
                       ratio: (string, string) -> real): seq<Event>
  {
    var step := Advance(s, Observe(name, clan, confMin), need);
    [OcrLine(name, clan)] +
    (if step.resolve then
       var pair := Pair(name.text, clan.text);
       [Loading(true), Resolved(pair), Status(Detected(pair))] +
       LookupEvents(LookUp(dir, ratio, name.text, clan.text)) + [Loading(false)]
     else [])
  }

  /** The state after one pass; a pass that raised changes nothing. */
  function TickState(s: Tracker, tk: Tick, confMin: real, need: int): Tracker
  {
    match tk
    case Failed(_) => s
    case Captured(_, _, _, _) => Advance(s, TickObservation(tk, confMin), need).next
  }

  /** The one message a lookup ends with. */
  function LookupEvents(o: Lookup): (evs: seq<Event>)
    ensures |evs| == 1 && !evs[0].Resolved? && !evs[0].Loading?
    ensures o.Found? <==> evs[0].DeckShown?
  {
    match o
    case ClanUnclear(s) => [Status(ClanSuggestions(s))]
    case PlayerMissing(m) => [Status(MemberSuggestions(m))]
    case Found(p, _) => [DeckShown(p)]
    case ApiError(e) => [Status(ApiFailure(e))]
  }

  /** The messages queued during one pass. */
  function TickEvents(s: Tracker, tk: Tick, confMin: real, need: int, ratio: (string, string) -> real): seq<Event>
  {
    match tk
    case Failed(e) => [Status(LoopFailure(e))]
    case Captured(name, _, _, dir) => FrameEvents(s, name, ClanReadingOf(tk), dir, confMin, need, ratio)
  }

  /** The state after a sequence of passes. */
  function RunState(s: Tracker, ticks: seq<Tick>, confMin: real, need: int): Tracker
  {
    if ticks == [] then s
    else TickState(RunState(s, ticks[..|ticks| - 1], confMin, need), ticks[|ticks| - 1], confMin, need)
  }

  /** The messages queued during a sequence of passes. */
  function RunEvents(s: Tracker, ticks: seq<Tick>, confMin: real, need: int, ratio: (string, string) -> real): seq<Event>
  {
    if ticks == [] then []
    else
      var init := ticks[..|ticks| - 1];
      RunEvents(s, init, confMin, need, ratio) +
      TickEvents(RunState(s, init, confMin, need), ticks[|ticks| - 1], confMin, need, ratio)
  }

  /** The scanner thread: the tracker fields and the queue it writes to. */
  class Scanner {
    const confMin: real
    const stableNeed: int
    /** The name-similarity ratio the roster search uses. */
    const ratio: (string, string) -> real
    var lastPair: Pair
    var stable: int
    var lastResolved: Option<Pair>
    /** Everything put on the queue so far. */
    var events: seq<Event>

    function State(): Tracker
      reads this
    {
      Tracker(lastPair, stable, lastResolved)
    }

    constructor (confMin: real, stableNeed: int, ratio: (string, string) -> real)
      ensures this.confMin == confMin && this.stableNeed == stableNeed && this.ratio == ratio
      ensures State() == Initial && events == []
    {
      this.confMin := confMin;
      this.stableNeed := stableNeed;
      this.ratio := ratio;
      lastPair := Pair("", "");
      stable := 0;
      lastResolved := None;
      events := [];
    }

    /** One pass of the loop in `run`. */
    method Tick(tk: Tick)
      modifies this
      ensures State() == TickState(old(State()), tk, confMin, stableNeed)
      ensures events == old(events) + TickEvents(old(State()), tk, confMin, stableNeed, ratio)
    {
      ghost var s0 := State();
      match tk {
        case Failed(e) =>
          events := events + [Status(LoopFailure(e))];
        case Captured(name, clanLine, clanBlock, dir) =>
          var clan := clanLine;
          if clan.conf < LineConfidenceFloor {
            clan := clanBlock;
          }
          assert clan == ClanReadingOf(tk);
          ghost var step := Advance(s0, Observe(name, clan, confMin), stableNeed);
          var evs := [OcrLine(name, clan)];
          if Plausible(name.text, MinPlausibleLength) && Plausible(clan.text, MinPlausibleLength) &&
             name.conf >= confMin && clan.conf >= confMin {
            var pair := Pair(name.text, clan.text);
            assert Observe(name, clan, confMin) == Some(pair);
            stable := if pair == lastPair then stable + 1 else 1;
            lastPair := pair;
            if stable >= stableNeed && lastResolved != Some(pair) {
              lastResolved := Some(pair);
              var outcome := LookUp(dir, ratio, name.text, clan.text);
              evs := evs + ([Loading(true), Resolved(pair), Status(Detected(pair))] +
                            LookupEvents(outcome) + [Loading(false)]);
              assert step.resolve;
            } else {
              assert s0.lastResolved == lastResolved;
              assert step.next.stable == stable;
              assert !step.resolve;
            }
          } else {
            assert Observe(name, clan, confMin) == None;
            stable := 0;
            assert !step.resolve;
          }
          assert evs == FrameEvents(s0, name, clan, dir, confMin, stableNeed, ratio);
          events := events + evs;
      }
    }

    /** `run`: the start message, then one pass per tick until stopped. */
    method Run(ticks: seq<Tick>)
      modifies this
      ensures State() == RunState(old(State()), ticks, confMin, stableNeed)
      ensures events == old(events) + [Status(ScanStarted)] +
                        RunEvents(old(State()), ticks, confMin, stableNeed, ratio) + [Status(ScanStopped)]
    {
      events := events + [Status(ScanStarted)];
      ghost var s0 := State();
      ghost var e0 := events;
      for i := 0 to |ticks|
        invariant State() == RunState(s0, ticks[..i], confMin, stableNeed)
        invariant events == e0 + RunEvents(s0, ticks[..i], confMin, stableNeed, ratio)
      {
        RunStep(ticks, i, s0, e0);
      }
      assert ticks[..|ticks|] == ticks;
      events := events + [Status(ScanStopped)];
    }

    /** One iteration of `run`'s loop: the pass over `ticks[i]` extends the
        state and the queue of the passes before it. */
    method RunStep(ticks: seq<Tick>, i: nat, ghost s0: Tracker, ghost e0: seq<Event>)
      requires i < |ticks|
      requires State() == RunState(s0, ticks[..i], confMin, stableNeed)
      requires events == e0 + RunEvents(s0, ticks[..i], confMin, stableNeed, ratio)
      modifies this
      ensures State() == RunState(s0, ticks[..i + 1], confMin, stableNeed)
      ensures events == e0 + RunEvents(s0, ticks[..i + 1], confMin, stableNeed, ratio)
    {
      ghost var before := State();
      Tick(ticks[i]);
      assert ticks[..i + 1][..i] == ticks[..i];
      AppendAssoc(e0, RunEvents(s0, ticks[..i], confMin, stableNeed, ratio),
                  TickEvents(before, ticks[i], confMin, stableNeed, ratio));
    }
  }

  // ------------------------------------------------------------------
  // What a run of the scanner amounts to
  // ------------------------------------------------------------------

  /** What the tracker sees: one observation per captured frame; passes
      that raised are not observed at all. */
  function Observations(ticks: seq<Tick>, confMin: real): (obs: seq<Option<Pair>>)
    ensures |obs| <= |ticks|
  {
    if ticks == [] then []
    else
      var last := ticks[|ticks| - 1];
      Observations(ticks[..|ticks| - 1], confMin) +
      (if last.Captured? then [TickObservation(last, confMin)] else [])
  }

  /** The pairs announced as resolved, in order. */
  function ResolvedPairs(evs: seq<Event>): seq<Pair>
  {
    if evs == [] then []
    else (if evs[0].Resolved? then [evs[0].pair] else []) + ResolvedPairs(evs[1..])
  }

  /** The number of `e` in `evs`. */
  function Occurrences(evs: seq<Event>, e: Event): nat
  {
    if evs == [] then 0 else (if evs[0] == e then 1 else 0) + Occurrences(evs[1..], e)
  }

  lemma {:induction false} ResolvedPairsAppend(a: seq<Event>, b: seq<Event>)
    ensures ResolvedPairs(a + b) == ResolvedPairs(a) + ResolvedPairs(b)
  {
    if a == [] {
      assert a + b == b;
    } else {
      assert (a + b)[0] == a[0];
      assert (a + b)[1..] == a[1..] + b;
      ResolvedPairsAppend(a[1..], b);
    }
  }

  lemma {:induction false} OccurrencesAppend(a: seq<Event>, b: seq<Event>, e: Event)
    ensures Occurrences(a + b, e) == Occurrences(a, e) + Occurrences(b, e)
  {
    if a == [] {
      assert a + b == b;
    } else {
      assert (a + b)[0] == a[0];
      assert (a + b)[1..] == a[1..] + b;
      OccurrencesAppend(a[1..], b, e);
    }
  }

  /** A captured frame announces its pair as resolved exactly when the
      tracker starts a lookup for it, and then switches the loading
      indicator on and off once each. */
  lemma FrameAnnouncements(s: Tracker, name: Reading, clan: Reading, dir: Directory, confMin: real, need: int,
                           ratio: (string, string) -> real)
    ensures var evs := FrameEvents(s, name, clan, dir, confMin, need, ratio);
      var go := Advance(s, Observe(name, clan, confMin), need).resolve;
      ResolvedPairs(evs) == (if go then [Pair(name.text, clan.text)] else []) &&
      Occurrences(evs, Loading(true)) == (if go then 1 else 0) &&
      Occurrences(evs, Loading(false)) == (if go then 1 else 0) &&
      (go ==> |evs| >= 5 && evs[0] == OcrLine(name, clan) && evs[1] == Loading(true) &&
              evs[|evs| - 1] == Loading(false)) &&
      (!go ==> evs == [OcrLine(name, clan)])
  {
    var evs := FrameEvents(s, name, clan, dir, confMin, need, ratio);
    if Advance(s, Observe(name, clan, confMin), need).resolve {
      var pair := Pair(name.text, clan.text);
      var look := LookupEvents(LookUp(dir, ratio, name.text, clan.text));
      var head: seq<Event> := [OcrLine(name, clan), Loading(true), Resolved(pair), Status(Detected(pair))];
      assert evs == head + look + [Loading(false)];
      assert evs[0] == head[0] && evs[1] == head[1] && evs[|evs| - 1] == Loading(false);
      assert head[4..] == [] && head[3..][1..] == head[4..] && head[2..][1..] == head[3..];
      assert head[1..][1..] == head[2..] && head[0..] == head;
      assert ResolvedPairs(head[3..]) == [] && ResolvedPairs(head[2..]) == [pair];
      assert ResolvedPairs(head[1..]) == [pair];
      assert Occurrences(head[3..], Loading(true)) == 0 && Occurrences(head[3..], Loading(false)) == 0;
      assert Occurrences(head[2..], Loading(true)) == 0 && Occurrences(head[2..], Loading(false)) == 0;
      assert Occurrences(head[1..], Loading(true)) == 1 && Occurrences(head[1..], Loading(false)) == 0;
      assert look[1..] == [] && [Loading(false)][1..] == [];
      ResolvedPairsAppend(head + look, [Loading(false)]);
      ResolvedPairsAppend(head, look);
      OccurrencesAppend(head + look, [Loading(false)], Loading(true));
      OccurrencesAppend(head, look, Loading(true));
      OccurrencesAppend(head + look, [Loading(false)], Loading(false));
      OccurrencesAppend(head, look, Loading(false));
    } else {
      assert evs == [OcrLine(name, clan)];
    }
  }

  /** One pass announces a pair as resolved exactly when the tracker starts
      a lookup for it, and switches the loading indicator on and off once
      each exactly then; a pass that raised announces nothing. */
  lemma TickAnnouncements(s: Tracker, tk: Tick, confMin: real, need: int, ratio: (string, string) -> real)
    ensures var evs := TickEvents(s, tk, confMin, need, ratio);
      var go := tk.Captured? && Advance(s, TickObservation(tk, confMin), need).resolve;
      ResolvedPairs(evs) == (if go then [TickObservation(tk, confMin).value] else []) &&
      Occurrences(evs, Loading(true)) == (if go then 1 else 0) &&
      Occurrences(evs, Loading(false)) == (if go then 1 else 0) &&
      (go ==> |evs| >= 5 && evs[1] == Loading(true) && evs[|evs| - 1] == Loading(false))
  {
    if tk.Captured? {
      FrameAnnouncements(s, tk.name, ClanReadingOf(tk), tk.dir, confMin, need, ratio);
    }
  }

  /** A run leaves the tracker where replaying the observed frames leaves it. */
  lemma {:induction false} RunStateIsReplay(s: Tracker, ticks: seq<Tick>, confMin: real, need: int)
    ensures RunState(s, ticks, confMin, need) == Replay(s, Observations(ticks, confMin), need)
  {
    if ticks != [] {
      var init := ticks[..|ticks| - 1];
      var last := ticks[|ticks| - 1];
      RunStateIsReplay(s, init, confMin, need);
      if last.Captured? {
        ReplaySnoc(s, Observations(init, confMin), TickObservation(last, confMin), need);
      } else {
        assert Observations(ticks, confMin) == Observations(init, confMin) + [];
        assert Observations(init, confMin) + [] == Observations(init, confMin);
        assert RunState(s, ticks, confMin, need) == RunState(s, init, confMin, need);
      }
    }
  }

  /** The pairs a run announces as resolved are exactly the tracker's
      lookups over the observed frames, and the loading indicator is
      switched on and off once per lookup. */
  lemma {:induction false} RunAnnouncements(s: Tracker, ticks: seq<Tick>, confMin: real, need: int,
                                            ratio: (string, string) -> real)
    ensures var evs := RunEvents(s, ticks, confMin, need, ratio);
      var looked := Resolutions(s, Observations(ticks, confMin), need);
      ResolvedPairs(evs) == looked &&
      Occurrences(evs, Loading(true)) == |looked| && Occurrences(evs, Loading(false)) == |looked|
  {
    if ticks != [] {
      var init := ticks[..|ticks| - 1];
      var last := ticks[|ticks| - 1];
      var s1 := RunState(s, init, confMin, need);
      var before := RunEvents(s, init, confMin, need, ratio);
      var now := TickEvents(s1, last, confMin, need, ratio);
      RunAnnouncements(s, init, confMin, need, ratio);
      RunStateIsReplay(s, init, confMin, need);
      TickAnnouncements(s1, last, confMin, need, ratio);
      ResolvedPairsAppend(before, now);
      OccurrencesAppend(before, now, Loading(true));
      OccurrencesAppend(before, now, Loading(false));
      if last.Captured? {
        ReplaySnoc(s, Observations(init, confMin), TickObservation(last, confMin), need);
      } else {
        assert Observations(ticks, confMin) == Observations(init, confMin);
      }
    }
  }

  /** The scanner never announces the same pair twice in a row, nor, first
      of all, the pair it last resolved before the run. */
  lemma NoBackToBackAnnouncements(s: Tracker, ticks: seq<Tick>, confMin: real, need: int,
                                  ratio: (string, string) -> real)
    ensures var r := ResolvedPairs(RunEvents(s, ticks, confMin, need, ratio));
      (r != [] ==> s.lastResolved != Some(r[0])) &&
      (forall i :: 0 <= i < |r| - 1 ==> r[i] != r[i + 1])
  {
    RunAnnouncements(s, ticks, confMin, need, ratio);
    LookupsNeverRepeatBackToBack(s, Observations(ticks, confMin), need);
  }
}
