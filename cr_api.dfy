/** The directory client's deterministic part: request paths and the single
    retry, resolution of free-text clan and player names against search
    results, the text rendering of a deck, and the deck analytics over a
    battle log (card keys, fixed-denominator similarity, history window,
    aggregate report). Network responses are inputs. */
module CrApi {
  import opened Py
  import opened Text

  // ------------------------------------------------------------------
  // Payloads of the directory service (only the fields the code reads;
  // None stands for a missing dictionary entry)
  // ------------------------------------------------------------------

  /** A card object. `id` is numeric in the service's payloads. */
  datatype Card = Card(
    id: Option<int>,
    key: Option<string>,
    name: Option<string>,
    level: Option<int>,
    elixirCost: Option<int>,
    elixir: Option<int>,
    iconUrls: map<string, string>)

  /** One side's participant in a battle record (`cards` is `[]` when missing). */
  datatype Participant = Participant(tag: Option<string>, crowns: Option<int>, cards: seq<Card>)

  /** A battle-log record; `gameMode` is the mode's `name` entry. */
  datatype Battle = Battle(
    kind: Option<string>,
    gameMode: Option<string>,
    deckSelection: Option<string>,
    challengeId: Option<int>,
    challengeTitle: Option<string>,
    isFriendly: bool,
    team: seq<Participant>,
    opponent: seq<Participant>)

  /** An entry of a clan search result. */
  datatype ClanItem = ClanItem(name: Option<string>, tag: Option<string>, members: Option<int>)

  /** An entry of a clan's member roster. */
  datatype MemberItem = MemberItem(name: Option<string>, tag: Option<string>)

  /** A player profile (`currentDeck` is `[]` when missing). */
  datatype Player = Player(
    name: Option<string>,
    tag: Option<string>,
    currentDeck: seq<Card>,
    currentFavouriteCard: Option<Card>)

  /** The result of a call that may raise. */
  datatype Fallible<T> = Ok(value: T) | Raised(error: string)

  /** What the remote service answers during one lookup: the clan search by
      name and limit, and the member roster and the player profile by
      request path. */
  datatype Directory = Directory(
    searchClans: (string, nat) -> Fallible<seq<ClanItem>>,
    clanMembers: string -> Fallible<seq<MemberItem>>,
    player: string -> Fallible<Player>)

  // ------------------------------------------------------------------
  // String helpers
  // ------------------------------------------------------------------

  /** `_norm`: lower-cased and stripped. Unicode decomposition and the
      removal of combining marks are not modelled. */
  function Norm(s: string): string
  {
    Strip(Lower(s))
  }

  /** The directory's `difflib` ranking: candidate `a` ranks at least as high
      as `b` when the pair (ratio, candidate) of `a` is at least that of `b`. */
  predicate Ranks(ratio: (string, string) -> real, query: string, a: string, b: string)
  {
    ratio(a, query) > ratio(b, query) || (ratio(a, query) == ratio(b, query) && StrLe(b, a))
  }

  lemma RanksTotal(ratio: (string, string) -> real, query: string, a: string, b: string)
    ensures Ranks(ratio, query, a, b) || Ranks(ratio, query, b, a)
  {
    StrLeTotal(a, b);
  }

  lemma RanksTrans(ratio: (string, string) -> real, query: string, a: string, b: string, c: string)
    requires Ranks(ratio, query, a, b) && Ranks(ratio, query, b, c)
    ensures Ranks(ratio, query, a, c)
  {
    if ratio(a, query) == ratio(b, query) && ratio(b, query) == ratio(c, query) {
      StrLeTrans(c, b, a);
    }
  }

  /** `difflib.get_close_matches(query, candidates, n=1, cutoff=0.0)[0]`:
      with a cutoff of 0.0 every candidate qualifies, and the single best
      by (ratio, candidate) is returned. */
  function ClosestMatch(candidates: seq<string>, query: string, ratio: (string, string) -> real): (r: string)
    requires |candidates| > 0
    ensures r in candidates
    ensures forall c :: c in candidates ==> Ranks(ratio, query, r, c)
  {
    StrLeRefl(candidates[0]);
    if |candidates| == 1 then candidates[0]
    else
      var rest := ClosestMatch(candidates[1..], query, ratio);
      RanksTotal(ratio, query, candidates[0], rest);
      assert forall c :: c in candidates ==> c == candidates[0] || c in candidates[1..];
      if Ranks(ratio, query, candidates[0], rest) then
        forall c | c in candidates[1..] ensures Ranks(ratio, query, candidates[0], c) {
          RanksTrans(ratio, query, candidates[0], rest, c);
        }
        candidates[0]
      else
        rest
  }

  /** `k` is the first candidate whose normalised form is `qn`. */
  predicate FirstExactAt(candidates: seq<string>, qn: string, k: int)
  {
    0 <= k < |candidates| && Norm(candidates[k]) == qn &&
    forall j :: 0 <= j < k ==> Norm(candidates[j]) != qn
  }

  /** Index of the first candidate whose normalised form is `qn`. */
  function FirstExact(candidates: seq<string>, qn: string): (k: Option<nat>)
    ensures k.Some? ==> k.value < |candidates| && Norm(candidates[k.value]) == qn
    ensures k.Some? ==> forall j :: 0 <= j < k.value ==> Norm(candidates[j]) != qn
    ensures k.None? ==> forall j :: 0 <= j < |candidates| ==> Norm(candidates[j]) != qn
  {
    FirstWhere(candidates, c => Norm(c) == qn)
  }

  /** Any first exact match is the one `FirstExact` finds. */
  lemma FirstExactIsFirstExactAt(candidates: seq<string>, qn: string)
    ensures forall k :: FirstExactAt(candidates, qn, k) ==> FirstExact(candidates, qn) == Some(k)
  {
    var f := FirstExact(candidates, qn);
    forall k | FirstExactAt(candidates, qn, k)
      ensures f == Some(k)
    {
      assert f.Some?;
      assert !(f.value < k) && !(k < f.value);
    }
  }

  /** `_best_name_match`: the first exact normalised match, otherwise the
      closest candidate by ratio; None only for no candidates. */
  function BestNameMatch(candidates: seq<string>, query: string, ratio: (string, string) -> real): (r: Option<string>)
    ensures r.None? <==> candidates == []
    ensures r.Some? ==> r.value in candidates
    ensures forall k :: FirstExactAt(candidates, Norm(query), k) ==> r == Some(candidates[k])
    ensures (forall j :: 0 <= j < |candidates| ==> Norm(candidates[j]) != Norm(query)) ==>
              forall c :: c in candidates ==> Ranks(ratio, query, r.value, c)
  {
    FirstExactIsFirstExactAt(candidates, Norm(query));
    match FirstExact(candidates, Norm(query))
    case Some(k) => Some(candidates[k])
    case None =>
      if candidates == [] then None else Some(ClosestMatch(candidates, query, ratio))
  }

  // ------------------------------------------------------------------
  // Request paths and the single retry
  // ------------------------------------------------------------------

  const ClansPrefix: string := "/clans/%23"
  const PlayersPrefix: string := "/players/%23"

  /** `tag.lstrip('#').upper()`: the canonical form of a tag. */
  function CanonicalTag(tag: string): (r: string)
    ensures |r| <= |tag|
    ensures r == [] || r[0] != '#'
    ensures forall i :: 0 <= i < |r| ==> !IsAsciiLower(r[i])
  {
    UpperChars(LStripChar(tag, '#'));
    Upper(LStripChar(tag, '#'))
  }

  /** `ClashAPI._clan_path` */
  function ClanPath(clanTag: string, suffix: string): string
  {
    ClansPrefix + CanonicalTag(clanTag) + suffix
  }

  /** `ClashAPI._player_path` */
  function PlayerPath(playerTag: string): string
  {
    PlayersPrefix + CanonicalTag(playerTag)
  }

  /** `get_clan_members` requests this path. */
  function MembersPath(clanTag: string): string
  {
    ClanPath(clanTag, "/members")
  }

  /** The canonical tag is a fixed point: canonicalising it again changes nothing. */
  lemma CanonicalTagIdempotent(tag: string)
    ensures CanonicalTag(CanonicalTag(tag)) == CanonicalTag(tag)
  {
    var c := CanonicalTag(tag);
    assert LStripChar(c, '#') == c;
    UpperIdempotent(LStripChar(tag, '#'));
  }

  /** A leading `#` (written as `%23` in the path) makes no difference. */
  lemma PathsIgnoreHashPrefix(tag: string, suffix: string)
    ensures ClanPath("#" + tag, suffix) == ClanPath(tag, suffix)
    ensures PlayerPath("#" + tag) == PlayerPath(tag)
  {
    assert ("#" + tag)[1..] == tag;
  }

  /** Two tags name the same player path exactly when their canonical forms agree. */
  lemma PlayerPathDeterminesTag(a: string, b: string)
    ensures PlayerPath(a) == PlayerPath(b) <==> CanonicalTag(a) == CanonicalTag(b)
  {
    if PlayerPath(a) == PlayerPath(b) {
      assert PlayerPath(a)[|PlayersPrefix|..] == CanonicalTag(a);
      assert PlayerPath(b)[|PlayersPrefix|..] == CanonicalTag(b);
    }
  }

  /** Two tags name the same clan path (with the same suffix) exactly when
      their canonical forms agree. */
  lemma ClanPathDeterminesTag(a: string, b: string, suffix: string)
    ensures ClanPath(a, suffix) == ClanPath(b, suffix) <==> CanonicalTag(a) == CanonicalTag(b)
  {
    if ClanPath(a, suffix) == ClanPath(b, suffix) {
      var p := ClanPath(a, suffix);
      assert p[|ClansPrefix|..|p| - |suffix|] == CanonicalTag(a);
      assert ClanPath(b, suffix)[|ClansPrefix|..|p| - |suffix|] == CanonicalTag(b);
    }
  }

  /** Answers after which `_get` sleeps and asks once more. */
  predicate Retryable(status: int)
  {
    status == 429 || status == 500 || status == 502 || status == 503 || status == 504
  }

  /** `raise_for_status` passes only 2xx answers. */
  predicate IsSuccess(status: int)
  {
    200 <= status < 300
  }

  /** What `_get` did: how many requests it sent, which answer it kept, and
      whether it raised. */
  datatype GetOutcome = GetOutcome(requests: nat, status: int, raised: bool)

  /** `_get` against a server whose first answer is `first` and whose second,
      if asked, is `second`. */
  function Get(first: int, second: int): (r: GetOutcome)
    ensures 1 <= r.requests <= 2
    ensures r.requests == 2 <==> Retryable(first)
    ensures r.raised <==> !IsSuccess(r.status)
    ensures r.status == (if r.requests == 2 then second else first)
  {
    var status := if Retryable(first) then second else first;
    GetOutcome(if Retryable(first) then 2 else 1, status, !IsSuccess(status))
  }

  /** A rate limit answered again by a rate limit raises once, after exactly
      one retry. */
  lemma RateLimitTwiceRaisesAfterOneRetry()
    ensures Get(429, 429) == GetOutcome(2, 429, true)
  {
  }

  /** A server error answered by a success on the retry does not raise: the
      second answer replaces the first. */
  lemma RetryRecovers(first: int, second: int)
    requires Retryable(first) && IsSuccess(second)
    ensures Get(first, second) == GetOutcome(2, second, false)
  {
  }

  // ------------------------------------------------------------------
  // Resolving clans and players
  // ------------------------------------------------------------------

  /** `(tag, suggestions, display_name)` */
  datatype Resolution = Resolution(tag: Option<string>, suggestions: seq<string>, display: string)

  const NotFound: Resolution := Resolution(None, [], "")
  const ClanSearchLimit: nat := 20
  const ClanSuggestionCount: nat := 5
  const RosterSuggestionCount: nat := 10

  /** `int(c.get("members") or 0)` */
  function MemberCount(c: ClanItem): int
  {
    GetOr(c.members, 0)
  }

  /** `_norm(c.get("name", ""))` */
  function ClanNorm(c: ClanItem): string
  {
    Norm(GetOr(c.name, ""))
  }

  /** `f"{c.get('name','?')} ({c.get('tag','?')})"` */
  function Suggestion(c: ClanItem): string
  {
    GetOr(c.name, "?") + " (" + GetOr(c.tag, "?") + ")"
  }

  /** The search results whose normalised name is `qn`, in order. */
  function ExactClans(items: seq<ClanItem>, qn: string): (r: seq<ClanItem>)
    ensures |r| <= |items|
    ensures forall c :: c in r ==> c in items && ClanNorm(c) == qn
    ensures forall c :: c in items && ClanNorm(c) == qn ==> c in r
  {
    if items == [] then []
    else (if ClanNorm(items[0]) == qn then [items[0]] else []) + ExactClans(items[1..], qn)
  }

  /** The exact pool keeps the search order: filtering two runs of results
      gives the exact pool of each, in turn. */
  lemma {:induction false} ExactClansAppend(a: seq<ClanItem>, b: seq<ClanItem>, qn: string)
    ensures ExactClans(a + b, qn) == ExactClans(a, qn) + ExactClans(b, qn)
  {
    if a == [] {
      assert a + b == b;
    } else {
      assert (a + b)[0] == a[0];
      assert (a + b)[1..] == a[1..] + b;
      ExactClansAppend(a[1..], b, qn);
    }
  }

  /** A single result is its own exact pool when it matches, and drops out
      otherwise. */
  lemma ExactClansSingle(c: ClanItem, qn: string)
    ensures ExactClans([c], qn) == (if ClanNorm(c) == qn then [c] else [])
  {
    assert [c][1..] == [];
  }

  lemma {:induction false} NoExactClans(items: seq<ClanItem>, qn: string)
    requires forall c :: c in items ==> ClanNorm(c) != qn
    ensures ExactClans(items, qn) == []
  {
    if items != [] {
      assert items[0] in items;
      NoExactClans(items[1..], qn);
    }
  }

  /** `max(pool, key=members)`: the index of the first largest entry, as a
      left-to-right scan that replaces its candidate only on a strictly
      larger count. */
  function FirstLargest(pool: seq<ClanItem>): (k: nat)
    requires |pool| > 0
    ensures k < |pool|
    ensures forall j :: 0 <= j < |pool| ==> MemberCount(pool[j]) <= MemberCount(pool[k])
    ensures forall j :: 0 <= j < k ==> MemberCount(pool[j]) < MemberCount(pool[k])
  {
    if |pool| == 1 then 0
    else
      var k := FirstLargest(pool[..|pool| - 1]);
      if MemberCount(pool[|pool| - 1]) > MemberCount(pool[k]) then |pool| - 1 else k
  }

  /** `exact or items` */
  function ClanPool(items: seq<ClanItem>, clanName: string): seq<ClanItem>
  {
    var exact := ExactClans(items, Norm(clanName));
    if exact != [] then exact else items
  }

  /** The clan `resolve_clan_tag_by_name` settles on. */
  function ChosenClan(items: seq<ClanItem>, clanName: string): ClanItem
    requires items != []
  {
    var pool := ClanPool(items, clanName);
    pool[FirstLargest(pool)]
  }

  /** `resolve_clan_tag_by_name` over the search results `items`. */
  function ResolveClan(items: seq<ClanItem>, clanName: string): (r: Resolution)
    ensures items == [] ==> r == NotFound
    ensures items != [] ==> |r.suggestions| == Min(ClanSuggestionCount, |items|)
    ensures forall i :: 0 <= i < |r.suggestions| ==> r.suggestions[i] == Suggestion(items[i])
    ensures r.tag.Some? ==> r.tag.value != "" && r.tag.value[0] != '#'
    ensures r.tag.Some? ==> forall i :: 0 <= i < |r.tag.value| ==> !IsAsciiLower(r.tag.value[i])
    ensures items != [] ==> r.display == GetOr(ChosenClan(items, clanName).name, "?")
    ensures items != [] ==>
              (r.tag.Some? <==> CanonicalTag(OrElse(ChosenClan(items, clanName).tag, "")) != "")
    ensures r.tag.Some? ==> r.tag.value == CanonicalTag(OrElse(ChosenClan(items, clanName).tag, ""))
  {
    if items == [] then NotFound
    else
      var best := ChosenClan(items, clanName);
      var tag := CanonicalTag(OrElse(best.tag, ""));
      var shown := items[..Min(ClanSuggestionCount, |items|)];
      Resolution(if tag != "" then Some(tag) else None,
                 seq(|shown|, i requires 0 <= i < |shown| => Suggestion(shown[i])),
                 GetOr(best.name, "?"))
  }

  /** An exact normalised match always wins over larger clans: the chosen
      clan is an exact match whenever one exists, and it has the most members
      among the exact matches. */
  lemma ExactClanMatchWins(items: seq<ClanItem>, clanName: string, c: ClanItem)
    requires c in items && ClanNorm(c) == Norm(clanName)
    ensures ClanNorm(ChosenClan(items, clanName)) == Norm(clanName)
    ensures forall e :: e in items && ClanNorm(e) == Norm(clanName) ==>
              MemberCount(e) <= MemberCount(ChosenClan(items, clanName))
    ensures exists k :: FirstLargestExactAt(items, Norm(clanName), k) && ChosenClan(items, clanName) == items[k]
  {
    var exact := ExactClans(items, Norm(clanName));
    assert c in exact;
    LargestOfExactPool(items, Norm(clanName));
    var k := FirstLargest(exact);
    assert exact[k] in exact;
    forall e | e in items && ClanNorm(e) == Norm(clanName)
      ensures MemberCount(e) <= MemberCount(ChosenClan(items, clanName))
    {
      var j :| 0 <= j < |exact| && exact[j] == e;
    }
  }

  /** `k` is the first exact match in `items` among those with the most
      members. */
  predicate FirstLargestExactAt(items: seq<ClanItem>, qn: string, k: int)
  {
    0 <= k < |items| && ClanNorm(items[k]) == qn &&
    (forall j :: 0 <= j < |items| && ClanNorm(items[j]) == qn ==> MemberCount(items[j]) <= MemberCount(items[k])) &&
    (forall j :: 0 <= j < k && ClanNorm(items[j]) == qn ==> MemberCount(items[j]) < MemberCount(items[k]))
  }

  /** `max` over the exact pool picks the first exact match with the most
      members, counted in search order. */
  lemma {:induction false} LargestOfExactPool(items: seq<ClanItem>, qn: string)
    requires ExactClans(items, qn) != []
    ensures exists k :: FirstLargestExactAt(items, qn, k) &&
              ExactClans(items, qn)[FirstLargest(ExactClans(items, qn))] == items[k]
  {
    var init, last := items[..|items| - 1], items[|items| - 1];
    assert items == init + [last];
    ExactClansAppend(init, [last], qn);
    ExactClansSingle(last, qn);
    var e, ei := ExactClans(items, qn), ExactClans(init, qn);
    if ClanNorm(last) != qn {
      assert e == ei + [] == ei;
      LargestOfExactPool(init, qn);
      var k :| FirstLargestExactAt(init, qn, k) && ei[FirstLargest(ei)] == init[k];
      LargestSkipsMismatch(items, qn, k);
      assert e[FirstLargest(e)] == items[k];
    } else if ei == [] {
      assert e == [] + [last] == [last];
      LargestIsOnlyExact(items, qn);
    } else {
      assert e == ei + [last];
      LargestOfExactPool(init, qn);
      var k :| FirstLargestExactAt(init, qn, k) && ei[FirstLargest(ei)] == init[k];
      FirstLargestSnoc(ei, last);
      LargestOfExtendedPool(items, qn, k);
      var k' := if MemberCount(last) > MemberCount(items[k]) then |items| - 1 else k;
      assert e[FirstLargest(e)] == items[k'];
      assert FirstLargestExactAt(items, qn, k');
    }
  }

  /** One more entry becomes the largest only with strictly more members. */
  lemma FirstLargestSnoc(pool: seq<ClanItem>, c: ClanItem)
    requires pool != []
    ensures var best := pool[FirstLargest(pool)];
      (pool + [c])[FirstLargest(pool + [c])] == if MemberCount(c) > MemberCount(best) then c else best
  {
    assert (pool + [c])[..|pool|] == pool;
  }

  /** `LargestOfExactPool`, when the last result does not match. */
  lemma LargestSkipsMismatch(items: seq<ClanItem>, qn: string, k: nat)
    requires items != [] && ClanNorm(items[|items| - 1]) != qn
    requires FirstLargestExactAt(items[..|items| - 1], qn, k)
    ensures FirstLargestExactAt(items, qn, k) && items[k] == items[..|items| - 1][k]
  {
    var init := items[..|items| - 1];
    forall j | 0 <= j < |init| ensures items[j] == init[j] { }
  }

  /** `LargestOfExactPool`, when the last result is the only exact match. */
  lemma LargestIsOnlyExact(items: seq<ClanItem>, qn: string)
    requires items != [] && ClanNorm(items[|items| - 1]) == qn
    requires ExactClans(items[..|items| - 1], qn) == []
    requires ExactClans(items, qn) == [items[|items| - 1]]
    ensures FirstLargestExactAt(items, qn, |items| - 1) &&
            ExactClans(items, qn)[FirstLargest(ExactClans(items, qn))] == items[|items| - 1]
  {
    var init := items[..|items| - 1];
    forall j | 0 <= j < |init|
      ensures ClanNorm(items[j]) != qn
    {
      assert items[j] == init[j];
      assert init[j] in init;
    }
  }

  /** `LargestOfExactPool`, when the last result extends a non-empty exact
      pool: it replaces the earlier choice only with strictly more members. */
  lemma LargestOfExtendedPool(items: seq<ClanItem>, qn: string, k: nat)
    requires items != [] && ClanNorm(items[|items| - 1]) == qn
    requires FirstLargestExactAt(items[..|items| - 1], qn, k)
    ensures items[k] == items[..|items| - 1][k]
    ensures var last := items[|items| - 1];
      FirstLargestExactAt(items, qn, if MemberCount(last) > MemberCount(items[k]) then |items| - 1 else k)
  {
    var init := items[..|items| - 1];
    forall j | 0 <= j < |init| ensures items[j] == init[j] { }
  }

  /** Without an exact match the chosen clan is the first of the results with
      the largest member count (a missing count counts as 0). */
  lemma LargestClanWithoutExactMatch(items: seq<ClanItem>, clanName: string)
    requires items != []
    requires forall c :: c in items ==> ClanNorm(c) != Norm(clanName)
    ensures exists k :: 0 <= k < |items| && ChosenClan(items, clanName) == items[k] &&
              (forall j :: 0 <= j < |items| ==> MemberCount(items[j]) <= MemberCount(items[k])) &&
              (forall j :: 0 <= j < k ==> MemberCount(items[j]) < MemberCount(items[k]))
  {
    NoExactClans(items, Norm(clanName));
    var k := FirstLargest(items);
    assert ChosenClan(items, clanName) == items[k];
  }

  /** `m.get("name", "")` for every roster entry. */
  function RosterNames(items: seq<MemberItem>): (names: seq<string>)
    ensures |names| == |items|
    ensures forall i :: 0 <= i < |items| ==> names[i] == GetOr(items[i].name, "")
  {
    seq(|items|, i requires 0 <= i < |items| => GetOr(items[i].name, ""))
  }

  /** `next(m for m in items if m.get("name", "") == name)` */
  function FirstNamed(items: seq<MemberItem>, name: string): (k: nat)
    requires name in RosterNames(items)
    ensures k < |items| && GetOr(items[k].name, "") == name
    ensures forall j :: 0 <= j < k ==> GetOr(items[j].name, "") != name
  {
    if GetOr(items[0].name, "") == name then 0
    else
      assert RosterNames(items) == [GetOr(items[0].name, "")] + RosterNames(items[1..]);
      FirstNamed(items[1..], name) + 1
  }

  /** `resolve_player_tag_in_clan` over the roster `items`. */
  function ResolvePlayer(items: seq<MemberItem>, playerName: string, ratio: (string, string) -> real): (r: Resolution)
    ensures items == [] ==> r == NotFound
    ensures items != [] ==> r.suggestions == RosterNames(items)[..Min(RosterSuggestionCount, |items|)]
    ensures items != [] ==> r.display in RosterNames(items)
    ensures r.display == "" ==> r.tag.None?
    ensures forall k :: FirstExactAt(RosterNames(items), Norm(playerName), k) ==> r.display == RosterNames(items)[k]
    ensures r.tag.Some? ==> r.tag.value != "" && r.tag.value[0] != '#'
    ensures r.tag.Some? ==>
              r.tag.value == CanonicalTag(OrElse(items[FirstNamed(items, r.display)].tag, ""))
    ensures items != [] && r.display != "" ==>
              r.display in RosterNames(items) &&
              (r.tag.Some? <==> CanonicalTag(OrElse(items[FirstNamed(items, r.display)].tag, "")) != "")
  {
    if items == [] then NotFound
    else
      var names := RosterNames(items);
      var shown := names[..Min(RosterSuggestionCount, |names|)];
      match BestNameMatch(names, playerName, ratio)
      case None => Resolution(None, shown, "")
      case Some(best) =>
        if best == "" then Resolution(None, shown, "")
        else
          var m := items[FirstNamed(items, best)];
          var tag := CanonicalTag(OrElse(m.tag, ""));
          Resolution(if tag != "" then Some(tag) else None, shown, best)
  }

  /** Without an exact match a non-empty roster still yields a name: the
      closest one, since there is no similarity floor. */
  lemma FuzzyPlayerFallback(items: seq<MemberItem>, playerName: string, ratio: (string, string) -> real)
    requires items != []
    requires forall j :: 0 <= j < |items| ==> Norm(RosterNames(items)[j]) != Norm(playerName)
    ensures ResolvePlayer(items, playerName, ratio).display in RosterNames(items)
    ensures forall n :: n in RosterNames(items) ==>
              Ranks(ratio, playerName, ResolvePlayer(items, playerName, ratio).display, n)
  {
  }

  // ------------------------------------------------------------------
  // Deck text
  // ------------------------------------------------------------------

  /** The first lines of `fmt_player_deck`. */
  function DeckHeader(p: Player, clanName: Option<string>): string
  {
    "\U{1F0CF} Aktuelles Deck von " + GetOr(p.name, "Unbekannt") + " " + GetOr(p.tag, "") + "\n"
    + (if Truthy(clanName) then "Clan: " + clanName.value + "\n" else "")
  }

  const NoDeckText: string := "Kein aktuelles Deck verf\U{FC}gbar."

  /** `f"{i:>2}"`: right-aligned to two columns. */
  function PadLeft2(s: string): (r: string)
    ensures |r| == Max(2, |s|)
  {
    if |s| >= 2 then s else seq(2 - |s|, _ => ' ') + s
  }

  /** The line for the `i`-th card (counted from 1). */
  function CardLine(i: nat, c: Card): string
  {
    PadLeft2(NatToString(i)) + ". " + GetOr(c.name, "Karte " + NatToString(i))
    + (if c.level.Some? then " (Lvl " + IntToString(c.level.value) + ")" else "")
  }

  /** One line per card of `deck`, numbered from 1. */
  function CardLines(deck: seq<Card>): (lines: seq<string>)
    ensures |lines| == |deck|
    ensures forall i :: 0 <= i < |deck| ==> lines[i] == CardLine(i + 1, deck[i])
  {
    seq(|deck|, i requires 0 <= i < |deck| => CardLine(i + 1, deck[i]))
  }

  /** The whole text `fmt_player_deck` returns. */
  function DeckText(p: Player, clanName: Option<string>): string
  {
    var header := DeckHeader(p, clanName);
    if p.currentDeck == [] then header + NoDeckText
    else Join([header] + CardLines(p.currentDeck), "\n")
  }

  /** `fmt_player_deck`: builds the header and one numbered line per card. */
  method FmtPlayerDeck(p: Player, clanName: Option<string>) returns (out: string)
    ensures out == DeckText(p, clanName)
  {
    var header := DeckHeader(p, clanName);
    var deck := p.currentDeck;
    if deck == [] {
      return header + NoDeckText;
    }
    var cardLines := NumberCards(deck);
    out := Join([header] + cardLines, "\n");
  }

  /** The loop of `fmt_player_deck`: one numbered line per card, in order. */
  method NumberCards(deck: seq<Card>) returns (lines: seq<string>)
    ensures lines == CardLines(deck)
  {
    lines := [];
    for i := 0 to |deck|
      invariant lines == CardLines(deck[..i])
    {
      CardLinesSnoc(deck, i);
      lines := lines + [CardLine(i + 1, deck[i])];
    }
    assert deck[..|deck|] == deck;
  }

  /** One more card adds its numbered line at the end. */
  lemma CardLinesSnoc(deck: seq<Card>, i: nat)
    requires i < |deck|
    ensures CardLines(deck[..i + 1]) == CardLines(deck[..i]) + [CardLine(i + 1, deck[i])]
  {
  }

  /** The deck text always starts with the header, and an empty deck adds
      only the fixed notice. */
  lemma DeckTextStartsWithHeader(p: Player, clanName: Option<string>)
    ensures |DeckHeader(p, clanName)| <= |DeckText(p, clanName)|
    ensures DeckText(p, clanName)[..|DeckHeader(p, clanName)|] == DeckHeader(p, clanName)
    ensures p.currentDeck == [] ==> DeckText(p, clanName) == DeckHeader(p, clanName) + NoDeckText
  {
    var header := DeckHeader(p, clanName);
    if p.currentDeck != [] {
      var lines := CardLines(p.currentDeck);
      assert ([header] + lines)[1..] == lines;
      assert DeckText(p, clanName) == header + "\n" + Join(lines, "\n");
    }
  }

  /** Cards one to nine are numbered " 1. " to " 9. ". */
  lemma CardLineNumbering(i: nat, c: Card)
    requires 1 <= i <= 9
    ensures CardLine(i, c)[..4] == [' ', Digit(i), '.', ' ']
  {
    assert NatToString(i) == [Digit(i)];
  }

  // ------------------------------------------------------------------
  // Deck analytics
  // ------------------------------------------------------------------

  /** `_norm_tag`: `(tag or "").strip().upper().lstrip("#")` */
  function NormTag(tag: Option<string>): string
  {
    LStripChar(Upper(Strip(OrElse(tag, ""))), '#')
  }

  /** A normalised tag has no leading `#` and no lower-case ASCII letter.
      (Kept out of `NormTag`'s contract so that the per-participant tag
      comparisons stay cheap to reason about.) */
  lemma NormTagShape(tag: Option<string>)
    ensures var r := NormTag(tag);
      (r == [] || r[0] != '#') && forall i :: 0 <= i < |r| ==> !IsAsciiLower(r[i])
  {
    var u := Upper(Strip(OrElse(tag, "")));
    UpperChars(Strip(OrElse(tag, "")));
    LStripCharSuffix(u, '#');
  }

  /** `_norm_tag` is not idempotent: `"# a"` gives `" A"`, which normalises
      further to `"A"`. */
  lemma NormTagNotIdempotent()
    ensures NormTag(Some("# a")) == " A"
    ensures NormTag(Some(" A")) == "A"
  {
    assert Strip("# a") == "# a";
    assert Upper("# a") == "# A";
    assert LStripChar("# A", '#') == " A";
    assert LStrip(" A") == "A";
    assert Strip(" A") == "A";
    assert Upper("A") == "A";
  }

  /** The identifier `_deck_keys` takes from a card:
      `c.get("id") or c.get("key") or c.get("name")`, as text. */
  function CardIdent(c: Card): Option<string>
  {
    if c.id.Some? && c.id.value != 0 then Some(IntToString(c.id.value))
    else if Truthy(c.key) then c.key
    else c.name
  }

  /** The key one card contributes: its lower-cased identifier, if any. */
  function CardKey(c: Card): seq<string>
  {
    match CardIdent(c) case Some(k) => [Lower(k)] case None => []
  }

  /** The lower-cased keys of the cards that have an identifier, in order. */
  function CardKeys(cards: seq<Card>): seq<string>
  {
    Concat(cards, CardKey)
  }

  /** Keys follow card order: the keys of two card lists in a row are the
      keys of the first followed by those of the second. */
  lemma CardKeysAppend(a: seq<Card>, b: seq<Card>)
    ensures CardKeys(a + b) == CardKeys(a) + CardKeys(b)
  {
    ConcatAppend(a, b, CardKey);
  }

  /** Every key comes from a card with an identifier, and every card with an
      identifier contributes its key. */
  lemma {:induction false} CardKeysMembership(cards: seq<Card>, k: string)
    ensures k in CardKeys(cards) <==>
              exists c :: c in cards && CardIdent(c).Some? && k == Lower(CardIdent(c).value)
  {
    if cards != [] {
      CardKeysMembership(cards[1..], k);
      assert forall c :: c in cards <==> c == cards[0] || c in cards[1..];
    }
  }

  /** There is at most one key per card, and exactly one per card when
      every card has an identifier. */
  lemma {:induction false} CardKeysLength(cards: seq<Card>)
    ensures |CardKeys(cards)| <= |cards|
    ensures |CardKeys(cards)| == |cards| <==> forall i :: 0 <= i < |cards| ==> CardIdent(cards[i]).Some?
  {
    if cards != [] {
      CardKeysLength(cards[1..]);
      assert forall i :: 1 <= i < |cards| ==> cards[i] == cards[1..][i - 1];
    }
  }

  /** `_deck_keys`: a loop that appends one key per identified card. */
  method DeckKeys(cards: seq<Card>) returns (keys: seq<string>)
    ensures keys == CardKeys(cards)
    ensures |keys| <= |cards|
  {
    keys := [];
    for i := 0 to |cards|
      invariant keys == CardKeys(cards[..i])
    {
      var cid := CardIdent(cards[i]);
      if cid.Some? {
        keys := keys + [Lower(cid.value)];
      }
      ConcatSnoc(cards, CardKey, i);
    }
    assert cards[..|cards|] == cards;
    CardKeysLength(cards);
  }

  /** `set(keys)` */
  function KeySet(keys: seq<string>): set<string>
  {
    set k | k in keys
  }

  lemma {:induction false} SubsetCardinality(a: set<string>, b: set<string>)
    requires a <= b
    ensures |a| <= |b|
    decreases |b|
  {
    if a != {} {
      var x :| x in a;
      SubsetCardinality(a - {x}, b - {x});
    }
  }

  /** `_deck_similarity`: shared distinct keys over 8 (the slots of a full
      deck, a fixed denominator), and 0 when either list is empty. The guard
      agrees with the formula, which gives 0 there too. */
  function DeckSimilarity(cur: seq<string>, hist: seq<string>): (s: real)
    ensures 0.0 <= s
    ensures cur == [] || hist == [] ==> s == 0.0
    ensures s * 8.0 == |KeySet(cur) * KeySet(hist)| as real
  {
    if cur == [] || hist == [] then
      assert KeySet(cur) * KeySet(hist) == {};
      0.0
    else
      |KeySet(cur) * KeySet(hist)| as real / 8.0
  }

  lemma DeckSimilaritySymmetric(a: seq<string>, b: seq<string>)
    ensures DeckSimilarity(a, b) == DeckSimilarity(b, a)
  {
    assert KeySet(a) * KeySet(b) == KeySet(b) * KeySet(a);
  }

  /** Similarity is at most 1 when either deck has at most 8 distinct keys. */
  lemma DeckSimilarityAtMostOne(a: seq<string>, b: seq<string>)
    requires |KeySet(a)| <= 8 || |KeySet(b)| <= 8
    ensures DeckSimilarity(a, b) <= 1.0
  {
    SubsetCardinality(KeySet(a) * KeySet(b), KeySet(a));
    SubsetCardinality(KeySet(a) * KeySet(b), KeySet(b));
  }

  /** The exact-match test `s >= 0.999` holds exactly when all 8 slots are shared. */
  lemma ExactMeansEightShared(a: seq<string>, b: seq<string>)
    ensures DeckSimilarity(a, b) >= ExactThreshold <==> |KeySet(a) * KeySet(b)| >= 8
  {
  }

  /** A deck compared with itself scores its number of distinct keys over 8,
      so the score exceeds 1 exactly when it has more than 8 distinct keys. */
  lemma SelfSimilarity(a: seq<string>)
    ensures DeckSimilarity(a, a) * 8.0 == |KeySet(a)| as real
    ensures DeckSimilarity(a, a) > 1.0 <==> |KeySet(a)| > 8
  {
    assert KeySet(a) * KeySet(a) == KeySet(a);
  }

  /** The cards of the first participant, team entries before opponent
      entries, whose normalised tag is `pt`; `[]` when none matches. */
  function FirstCardsOf(players: seq<Participant>, pt: string): seq<Card>
  {
    if players == [] then []
    else if NormTag(players[0].tag) == pt then players[0].cards
    else FirstCardsOf(players[1..], pt)
  }

  /** The player's cards in one battle record, as the search over `team`
      then `opponent` finds them. */
  function PlayerCards(b: Battle, playerTag: string): seq<Card>
  {
    FirstCardsOf(b.team + b.opponent, NormTag(Some(playerTag)))
  }

  /** The search returns the cards of the first participant whose tag matches,
      and `[]` when no participant matches. */
  lemma {:induction false} FirstCardsOfFirstMatch(players: seq<Participant>, pt: string, k: nat)
    requires k <= |players|
    requires forall j :: 0 <= j < k ==> NormTag(players[j].tag) != pt
    ensures k < |players| && NormTag(players[k].tag) == pt ==> FirstCardsOf(players, pt) == players[k].cards
    ensures k == |players| ==> FirstCardsOf(players, pt) == []
  {
    if k > 0 {
      FirstCardsOfFirstMatch(players[1..], pt, k - 1);
    }
  }

  /** Team entries are searched before opponent entries. */
  lemma {:induction false} TeamBeforeOpponent(team: seq<Participant>, opponent: seq<Participant>, pt: string)
    ensures (exists i :: 0 <= i < |team| && NormTag(team[i].tag) == pt) ==>
              FirstCardsOf(team + opponent, pt) == FirstCardsOf(team, pt)
    ensures (forall i :: 0 <= i < |team| ==> NormTag(team[i].tag) != pt) ==>
              FirstCardsOf(team + opponent, pt) == FirstCardsOf(opponent, pt)
  {
    if team != [] {
      assert (team + opponent)[0] == team[0];
      assert (team + opponent)[1..] == team[1..] + opponent;
      TeamBeforeOpponent(team[1..], opponent, pt);
      if NormTag(team[0].tag) != pt {
        assert (exists i :: 0 <= i < |team| && NormTag(team[i].tag) == pt) ==>
                 (exists i :: 0 <= i < |team[1..]| && NormTag(team[1..][i].tag) == pt) by {
          if exists i :: 0 <= i < |team| && NormTag(team[i].tag) == pt {
            var i :| 0 <= i < |team| && NormTag(team[i].tag) == pt;
            assert team[1..][i - 1] == team[i];
          }
        }
        assert (forall i :: 0 <= i < |team| ==> NormTag(team[i].tag) != pt) ==>
                 (forall i :: 0 <= i < |team[1..]| ==> NormTag(team[1..][i].tag) != pt) by {
          forall i | 0 <= i < |team[1..]| ensures team[1..][i] == team[i + 1] {
          }
        }
      }
    } else {
      assert team + opponent == opponent;
    }
  }

  /** `extract_player_cards_from_battle`: scans `team`, then `opponent`, and
      returns at the first participant whose normalised tag matches. */
  method ExtractPlayerCards(b: Battle, playerTag: string) returns (cards: seq<Card>)
    ensures cards == PlayerCards(b, playerTag)
  {
    var pt := NormTag(Some(playerTag));
    var all := b.team + b.opponent;
    for s := 0 to 2
      invariant forall k :: 0 <= k < (if s == 0 then 0 else if s == 1 then |b.team| else |all|) ==>
                  NormTag(all[k].tag) != pt
    {
      var side := if s == 0 then b.team else b.opponent;
      var offset := if s == 0 then 0 else |b.team|;
      for j := 0 to |side|
        invariant forall k :: 0 <= k < offset + j ==> NormTag(all[k].tag) != pt
      {
        assert all[offset + j] == side[j];
        if NormTag(side[j].tag) == pt {
          FirstCardsOfFirstMatch(all, pt, offset + j);
          return side[j].cards;
        }
      }
    }
    FirstCardsOfFirstMatch(all, pt, |all|);
    cards := [];
  }

  /** The deck one battle contributes to the history: the player's keys when
      the player has cards in it, nothing otherwise. */
  function BattleDeck(b: Battle, playerTag: string): (d: seq<seq<string>>)
    ensures |d| <= 1
  {
    var cards := PlayerCards(b, playerTag);
    if cards != [] then [CardKeys(cards)] else []
  }

  /** `BattleDeck` for one fixed player tag. */
  function DeckOf(playerTag: string): Battle -> seq<seq<string>>
  {
    b => BattleDeck(b, playerTag)
  }

  /** The key lists of every battle in which the player has cards, in
      battle order. */
  function HistoryDecks(battles: seq<Battle>, playerTag: string): seq<seq<string>>
  {
    Concat(battles, DeckOf(playerTag))
  }

  lemma HistoryDecksAppend(a: seq<Battle>, b: seq<Battle>, playerTag: string)
    ensures HistoryDecks(a + b, playerTag) == HistoryDecks(a, playerTag) + HistoryDecks(b, playerTag)
  {
    ConcatAppend(a, b, DeckOf(playerTag));
  }

  /** One more battle adds at most its own deck to the history. */
  lemma HistoryDecksSnoc(battles: seq<Battle>, i: nat, playerTag: string)
    requires i < |battles|
    ensures HistoryDecks(battles[..i + 1], playerTag)
         == HistoryDecks(battles[..i], playerTag) + BattleDeck(battles[i], playerTag)
  {
    assert battles[..i + 1] == battles[..i] + [battles[i]];
    HistoryDecksAppend(battles[..i], [battles[i]], playerTag);
    assert DeckOf(playerTag)(battles[i]) == BattleDeck(battles[i], playerTag);
    assert Concat([battles[i]], DeckOf(playerTag)) == DeckOf(playerTag)(battles[i]) + Concat([], DeckOf(playerTag));
  }

  /** Where the scan of `last_n_decks_from_battlelog` stops, the decks seen so
      far are the requested window of the whole history. */
  lemma HistoryWindow(battles: seq<Battle>, playerTag: string, i: nat, n: int)
    requires i <= |battles|
    requires i == |battles| || (i > 0 && |HistoryDecks(battles[..i], playerTag)| >= n)
    requires i > 1 ==> |HistoryDecks(battles[..i - 1], playerTag)| < n
    ensures n >= 1 ==>
              HistoryDecks(battles[..i], playerTag) == HistoryDecks(battles, playerTag)[..Min(n, |HistoryDecks(battles, playerTag)|)]
    ensures n < 1 ==> HistoryDecks(battles[..i], playerTag) == HistoryDecks(battles[..Min(1, |battles|)], playerTag)
  {
    if n >= 1 {
      HistoryPrefixWindow(battles, playerTag, i, n);
    } else if battles != [] {
      assert i == 1;
    }
  }

  /** For a window of at least one deck: the stopping point's decks are the
      first `n` decks of the whole history, or all of them. */
  lemma HistoryPrefixWindow(battles: seq<Battle>, playerTag: string, i: nat, n: int)
    requires n >= 1 && i <= |battles|
    requires i == |battles| || (i > 0 && |HistoryDecks(battles[..i], playerTag)| >= n)
    requires i > 1 ==> |HistoryDecks(battles[..i - 1], playerTag)| < n
    ensures HistoryDecks(battles[..i], playerTag) == HistoryDecks(battles, playerTag)[..Min(n, |HistoryDecks(battles, playerTag)|)]
  {
    forall j | 0 <= j < |battles|
      ensures |DeckOf(playerTag)(battles[j])| <= 1
    {
      assert DeckOf(playerTag)(battles[j]) == BattleDeck(battles[j], playerTag);
    }
    DecksPrefixWindow(battles, DeckOf(playerTag), i, n);
  }

  /** `HistoryPrefixWindow` for any per-battle deck of at most one entry. */
  lemma DecksPrefixWindow(battles: seq<Battle>, deck: Battle -> seq<seq<string>>, i: nat, n: int)
    requires n >= 1 && i <= |battles|
    requires forall j :: 0 <= j < |battles| ==> |deck(battles[j])| <= 1
    requires i == |battles| || (i > 0 && |Concat(battles[..i], deck)| >= n)
    requires i > 1 ==> |Concat(battles[..i - 1], deck)| < n
    ensures Concat(battles[..i], deck) == Concat(battles, deck)[..Min(n, |Concat(battles, deck)|)]
  {
    var p := Concat(battles[..i], deck);
    assert battles == battles[..i] + battles[i..];
    ConcatAppend(battles[..i], battles[i..], deck);
    if i > 0 {
      ConcatSnoc(battles, deck, i - 1);
      assert battles[..i - 1 + 1] == battles[..i];
      assert battles[..0] == [];
    }
    if |p| < n {
      assert battles[..i] == battles;
    }
    WindowOfPrefix(p, Concat(battles[i..], deck), n);
  }

  /** A prefix of at most `n` elements that is either exactly `n` long or the
      whole list is the list's window of `n`. */
  lemma WindowOfPrefix<T>(p: seq<T>, rest: seq<T>, n: int)
    requires n >= 1 && |p| <= n && (|p| < n ==> rest == [])
    ensures p == (p + rest)[..Min(n, |p + rest|)]
  {
    if |p| == n {
      assert (p + rest)[..n] == p;
    }
  }

  /** `last_n_decks_from_battlelog`: for n >= 1 the first n history decks
      (or all of them); for n <= 0 the loop stops after the first battle,
      keeping at most that battle's deck. */
  method LastNDecks(battles: seq<Battle>, playerTag: string, n: int) returns (decks: seq<seq<string>>)
    ensures n >= 1 ==> decks == HistoryDecks(battles, playerTag)[..Min(n, |HistoryDecks(battles, playerTag)|)]
    ensures n < 1 ==> decks == HistoryDecks(battles[..Min(1, |battles|)], playerTag)
  {
    decks := [];
    var i := 0;
    while i < |battles|
      invariant 0 <= i <= |battles|
      invariant decks == HistoryDecks(battles[..i], playerTag)
      invariant i > 0 ==> |decks| < n
      invariant i > 1 ==> |HistoryDecks(battles[..i - 1], playerTag)| < n
    {
      var cards := ExtractPlayerCards(battles[i], playerTag);
      if cards != [] {
        var keys := DeckKeys(cards);
        decks := decks + [keys];
      }
      HistoryDecksSnoc(battles, i, playerTag);
      i := i + 1;
      if |decks| >= n {
        break;
      }
    }
    HistoryWindow(battles, playerTag, i, n);
  }

  /** `{count, avg, best, exact}` */
  datatype Report = Report(count: nat, avg: real, best: real, exact: nat)

  /** Similarities of at least this count as exact matches. */
  const ExactThreshold: real := 0.999

  /** `max(xs)` */
  function Largest(xs: seq<real>): (m: real)
    requires xs != []
    ensures m in xs
    ensures forall i :: 0 <= i < |xs| ==> xs[i] <= m
  {
    if |xs| == 1 then xs[0]
    else
      var rest := Largest(xs[1..]);
      if xs[0] >= rest then xs[0] else rest
  }

  /** `sum(1 for s in xs if s >= t)` */
  function CountAtLeast(xs: seq<real>, t: real): (n: nat)
    ensures n <= |xs|
  {
    if xs == [] then 0 else (if xs[0] >= t then 1 else 0) + CountAtLeast(xs[1..], t)
  }

  /** The aggregate of a list of similarities. */
  function Summary(sims: seq<real>): (r: Report)
    requires forall i :: 0 <= i < |sims| ==> 0.0 <= sims[i]
    ensures sims == [] ==> r == Report(0, 0.0, 0.0, 0)
    ensures r.count == |sims|
    ensures r.exact <= r.count
    ensures 0.0 <= r.avg <= r.best
    ensures forall i :: 0 <= i < |sims| ==> sims[i] <= r.best
    ensures sims != [] ==> r.best in sims
    ensures sims != [] ==> r.avg == Mean(sims)
  {
    if sims == [] then Report(0, 0.0, 0.0, 0)
    else
      var best := Largest(sims);
      MeanBounds(sims, 0.0, best);
      Report(|sims|, Mean(sims), best, CountAtLeast(sims, ExactThreshold))
  }

  /** The similarity of the current deck to every historical deck, in order. */
  function Similarities(cur: seq<string>, recent: seq<seq<string>>): (sims: seq<real>)
    ensures |sims| == |recent|
    ensures forall i :: 0 <= i < |recent| ==> sims[i] == DeckSimilarity(cur, recent[i])
  {
    seq(|recent|, i requires 0 <= i < |recent| => DeckSimilarity(cur, recent[i]))
  }

  /** `deck_match_report`: the number of historical decks, the mean and the
      best similarity, and the number of exact matches; all zero for no
      history. */
  function DeckMatchReport(current: seq<Card>, recent: seq<seq<string>>): (r: Report)
    ensures recent == [] ==> r == Report(0, 0.0, 0.0, 0)
    ensures r.count == |recent|
    ensures r.exact <= r.count
    ensures 0.0 <= r.avg <= r.best
    ensures forall i :: 0 <= i < |recent| ==> Similarities(CardKeys(current), recent)[i] <= r.best
    ensures recent != [] ==> r.best in Similarities(CardKeys(current), recent)
    ensures r.avg == Mean(Similarities(CardKeys(current), recent))
    ensures r.exact == CountAtLeast(Similarities(CardKeys(current), recent), ExactThreshold)
  {
    var sims := Similarities(CardKeys(current), recent);
    SimilaritiesNonNegative(CardKeys(current), recent);
    Summary(sims)
  }

  lemma SimilaritiesNonNegative(cur: seq<string>, recent: seq<seq<string>>)
    ensures forall i :: 0 <= i < |recent| ==> 0.0 <= Similarities(cur, recent)[i]
  {
  }

  /** The historical decks that share all 8 slots with `cur`. */
  function FullOverlaps(cur: seq<string>, recent: seq<seq<string>>): nat
  {
    if recent == [] then 0
    else (if |KeySet(cur) * KeySet(recent[0])| >= 8 then 1 else 0) + FullOverlaps(cur, recent[1..])
  }

  /** The report's `exact` counts exactly the historical decks that share all
      8 slots with the current deck. */
  lemma {:induction false} ExactCountsFullOverlaps(cur: seq<string>, recent: seq<seq<string>>)
    ensures CountAtLeast(Similarities(cur, recent), ExactThreshold) == FullOverlaps(cur, recent)
  {
    if recent != [] {
      ExactMeansEightShared(cur, recent[0]);
      assert Similarities(cur, recent)[1..] == Similarities(cur, recent[1..]);
      ExactCountsFullOverlaps(cur, recent[1..]);
    }
  }

  // ------------------------------------------------------------------
  // The lookup both front ends run for a resolved pair
  // ------------------------------------------------------------------

  /** `resolve_clan_tag_by_name(api, clanName)`: one clan search, which may raise. */
  function ResolveClanVia(dir: Directory, clanName: string): Fallible<Resolution>
  {
    match dir.searchClans(clanName, ClanSearchLimit)
    case Raised(e) => Raised(e)
    case Ok(items) => Ok(ResolveClan(items, clanName))
  }

  /** `resolve_player_tag_in_clan(api, clanTag, playerName)`: one roster
      request, which may raise. */
  function ResolvePlayerVia(dir: Directory, clanTag: string, playerName: string,
                            ratio: (string, string) -> real): Fallible<Resolution>
  {
    match dir.clanMembers(MembersPath(clanTag))
    case Raised(e) => Raised(e)
    case Ok(items) => Ok(ResolvePlayer(items, playerName, ratio))
  }

  /** The roster of clan `clanTag` resolves `name` to a tag whose profile is `p`. */
  predicate FoundInClan(dir: Directory, clanTag: string, name: string, ratio: (string, string) -> real, p: Player)
  {
    var pr := ResolvePlayerVia(dir, clanTag, name, ratio);
    pr.Ok? && pr.value.tag.Some? && dir.player(PlayerPath(pr.value.tag.value)) == Ok(p)
  }

  /** How a lookup ends. */
  datatype Lookup =
    | ClanUnclear(suggestions: seq<string>)
    | PlayerMissing(members: seq<string>)
    | Found(player: Player, clanDisplay: string)
    | ApiError(error: string)

  /** Clan search, then roster search in the clan found, then the player's
      profile; the first miss or the first failure ends it. */
  function LookUp(dir: Directory, ratio: (string, string) -> real, name: string, clan: string): Lookup
  {
    match ResolveClanVia(dir, clan)
    case Raised(e) => ApiError(e)
    case Ok(cr) => LookUpInClan(dir, ratio, name, cr)
  }

  /** The lookup once the clan search has answered with `cr`. */
  function LookUpInClan(dir: Directory, ratio: (string, string) -> real, name: string, cr: Resolution): Lookup
  {
    if cr.tag.None? then ClanUnclear(Prefix(cr.suggestions, ClanSuggestionCount))
    else
      match ResolvePlayerVia(dir, cr.tag.value, name, ratio)
      case Raised(e) => ApiError(e)
      case Ok(pr) => LookUpProfile(dir, cr.display, pr)
  }

  /** The lookup once the roster search has answered with `pr`. */
  function LookUpProfile(dir: Directory, clanDisplay: string, pr: Resolution): Lookup
  {
    if pr.tag.None? then PlayerMissing(Prefix(pr.suggestions, RosterSuggestionCount))
    else
      match dir.player(PlayerPath(pr.tag.value))
      case Raised(e) => ApiError(e)
      case Ok(p) => Found(p, clanDisplay)
  }

  /** How a lookup that got the clan answer `cr` ends, each outcome exactly
      under its condition on the later answers: clan suggestions (at most
      five) when the clan search gave no tag; roster names (at most ten) when
      the roster search gave no tag; an error when the roster or the profile
      request raised; otherwise the profile of the player that roster search
      found in that clan. */
  predicate InClanOutcome(dir: Directory, ratio: (string, string) -> real, name: string, cr: Resolution, o: Lookup)
  {
    (o.ClanUnclear? <==> cr.tag.None?) &&
    (o.ClanUnclear? ==> |o.suggestions| <= ClanSuggestionCount) &&
    (cr.tag.Some? ==>
       var pr := ResolvePlayerVia(dir, cr.tag.value, name, ratio);
       (pr.Raised? ==> o == ApiError(pr.error)) &&
       (o.PlayerMissing? <==> pr.Ok? && pr.value.tag.None?) &&
       (o.PlayerMissing? ==> |o.members| <= RosterSuggestionCount) &&
       (o.ApiError? <==> pr.Raised? || (pr.value.tag.Some? && dir.player(PlayerPath(pr.value.tag.value)).Raised?)) &&
       (o.Found? <==> pr.Ok? && pr.value.tag.Some? && dir.player(PlayerPath(pr.value.tag.value)).Ok?) &&
       (o.Found? ==> o.clanDisplay == cr.display && FoundInClan(dir, cr.tag.value, name, ratio, o.player)))
  }

  /** How a lookup ends: the clan search's error when it raised, and
      otherwise as `InClanOutcome` says for its answer. (Kept out of
      `LookUp`'s contract so that the scanner's specifications, which mention
      `LookUp`, stay cheap to reason about.) */
  lemma LookUpOutcomes(dir: Directory, ratio: (string, string) -> real, name: string, clan: string)
    ensures var o, rc := LookUp(dir, ratio, name, clan), ResolveClanVia(dir, clan);
      (rc.Raised? ==> o == ApiError(rc.error)) &&
      (rc.Ok? ==> InClanOutcome(dir, ratio, name, rc.value, o))
  {
    var rc := ResolveClanVia(dir, clan);
    if rc.Ok? {
      LookUpInClanOutcomes(dir, ratio, name, rc.value);
    }
  }

  /** `LookUpOutcomes` once the clan search has answered with `cr`. */
  lemma LookUpInClanOutcomes(dir: Directory, ratio: (string, string) -> real, name: string, cr: Resolution)
    ensures InClanOutcome(dir, ratio, name, cr, LookUpInClan(dir, ratio, name, cr))
  {
    if cr.tag.Some? {
      var pr := ResolvePlayerVia(dir, cr.tag.value, name, ratio);
      if pr.Ok? {
        assert LookUpInClan(dir, ratio, name, cr) == LookUpProfile(dir, cr.display, pr.value);
      }
    }
  }
}
