# deckfinder, modelled in Dafny

deckfinder reads an opponent's name and clan from the Clash Royale screen
with Tesseract. It then finds the player through the official Clash Royale
API: first the clan by name, then the member by (fuzzy) name, then the
player's profile. Finally it shows the player's current deck. It ships in
two front ends:

- a console scanner (`scan.py`);
- a Tk window (`ui.py`). Its scanner thread queues events for the window.
  The window also compares the current deck with the decks of the player's
  recent ladder battles.

This project models the deterministic core of both front ends and of the
API helper module `cr_api.py`, and proves properties of that model.

| module (file) | what it models |
|---|---|
| `Py` (`py.dfy`) | Python conventions the code relies on: optional entries, truthiness of strings, slicing, `sum`/mean |
| `Text` (`text.dfy`) | `str.isspace`, `strip`/`lstrip`, ASCII `upper`/`lower`, `in`, `join`, `re.sub(r"\s+", " ", …)`, decimal rendering, string order |
| `CrApi` (`cr_api.dfy`) | `cr_api.py`: name normalisation and matching, API paths, the retry rule of `_get`, clan and member resolution, `fmt_player_deck`, deck keys and similarity, the battle-log search, `deck_match_report`, and the lookup chain both front ends run |
| `Ocr` (`ocr.dfy`) | cropping, the word-table post-processing shared by `_ocr_psm` and `ocr_line`, the `ocr_clan` fallback, `plausible` |
| `Debounce` (`debounce.dfy`) | the gate / `stable` / `last_pair` / `last_resolved` transition both scanners run on each frame, and its behaviour over sequences of frames |
| `Ui` (`ui.dfy`) | `ui.py`: the ladder filter, four-card cycle, favourite card, icon choice, the PvP tally, the history window and similarity figures of `show_deck`, and the `Scanner` thread as a class with its event queue |
| `Scan` (`scan.dfy`) | `scan.py`: the capture region, `rel_roi`, and the main loop with its printed lines |

Inputs that come from outside are parameters:

- **The API.** `Directory` holds three total functions: clan search,
  roster by path and profile by path. Each answers `Ok` or `Raised`.
- **Name ranking.** difflib's similarity ratio is a parameter
  `ratio: (string, string) -> real`.
- **Frames.** Each scanner pass receives what the recogniser produced for
  that frame, already post-processed into readings (text plus mean
  confidence). `Ocr.Recognise` models that post-processing once, on the raw
  word table.
- **Console output.** The scanner's printed lines and queued messages are
  structured values, not formatted strings.

Two points about the OCR front end (ui.py:96-104):

- `ocr_clan` keeps the single-line reading when its confidence reaches 30
  and otherwise takes the block reading, even a weaker one
  (`Ocr.FallbackCanLowerConfidence`).
- `ocr_name` reads the name in one single-word pass.

Other points that are easy to miss:

- `last_n_decks_from_battlelog` with `n <= 0` stops after the first battle,
  because `len(decks) >= n` already holds (`CrApi.LastNDecks`).
- The deck similarity exceeds 1 when the current deck has more than eight
  distinct keys (`CrApi.SelfSimilarity`).

## Model

| member | source | states |
|---|---|---|
| CrApi.ClosestMatch | cr_api.py:29 | the fuzzy fallback returns a candidate that ranks at least as high as every candidate under the ratio, with ties broken by string order |
| CrApi.BestNameMatch | cr_api.py:21-29 | None exactly when there are no candidates; the first exact normalised match wins; otherwise the best-ranked candidate wins |
| CrApi.FirstExact | cr_api.py:24-26 | finds the first candidate whose normalised form equals the query's, or reports that none does |
| CrApi.FirstExactIsFirstExactAt | cr_api.py:24-26 | any index holding the first exact match is the one the search returns |
| CrApi.Norm | cr_api.py:12-18 | defined as lower-casing, then stripping whitespace at both ends (ASCII letters only; see Left out) |
| CrApi.CanonicalTag | cr_api.py:64 | a canonical tag has no leading `#` and no lower-case ASCII letter, and is no longer than the input (for the ASCII case mapping; see Left out) |
| CrApi.CanonicalTagIdempotent | cr_api.py:64 | canonicalising a tag twice is the same as once |
| CrApi.PathsIgnoreHashPrefix | cr_api.py:62-68 | a leading `#` on a tag does not change the clan or player path |
| CrApi.PlayerPathDeterminesTag | cr_api.py:66-68 | two tags give the same player path exactly when their canonical forms agree |
| CrApi.ClanPathDeterminesTag | cr_api.py:62-64 | two tags give the same clan path exactly when their canonical forms agree |
| CrApi.Get | cr_api.py:79-84 | at most two requests; a second one exactly when the first status is 429 or 5xx (500, 502, 503, 504), and then the second answer replaces the first; it raises exactly when the kept status is not 2xx |
| CrApi.RateLimitTwiceRaisesAfterOneRetry | cr_api.py:80-84 | two rate limits in a row mean two requests and then an error |
| CrApi.RetryRecovers | cr_api.py:80-84 | a retryable first answer followed by a success means two requests and no error |
| CrApi.ExactClans | cr_api.py:114 | keeps exactly the results whose normalised name equals the query's |
| CrApi.ExactClansAppend | cr_api.py:114 | the exact pool keeps the search order: filtering consecutive runs of results gives their exact pools in turn |
| CrApi.ExactClansSingle | cr_api.py:114 | a single result is its own exact pool when its normalised name equals the query's, and is dropped otherwise |
| CrApi.LargestOfExactPool | cr_api.py:114-116 | `max` over the exact pool picks, among the exact matches, the first one in search order with the most members |
| CrApi.FirstLargest | cr_api.py:116 | `max` by member count returns the first entry with the most members |
| CrApi.ResolveClan | cr_api.py:103-121 | no results give `(None, [], "")`; the suggestions are the first five results; the display name is the chosen clan's; the tag is present exactly when the chosen clan's canonical tag is not empty |
| CrApi.ExactClanMatchWins | cr_api.py:114-116 | when some result matches exactly, the chosen clan is an exact match, it has the most members among them, and it is the first such exact match in search order |
| CrApi.LargestClanWithoutExactMatch | cr_api.py:115-116 | with no exact match, the chosen clan is the first largest of all results |
| CrApi.RosterNames | cr_api.py:134 | one name per roster entry, `""` when the name is missing |
| CrApi.FirstNamed | cr_api.py:139 | `next(...)` finds the first entry carrying the matched name |
| CrApi.ResolvePlayer | cr_api.py:124-141 | an empty roster gives `(None, [], "")`; otherwise the suggestions are the first ten names and the display name is a roster name; an exact normalised match always wins; no display name means no tag; with a display name the tag is present exactly when the first entry with that name has a non-empty canonical tag, and is that tag |
| CrApi.FuzzyPlayerFallback | cr_api.py:135 | without an exact match, a non-empty roster still yields its best-ranked name |
| CrApi.NumberCards | cr_api.py:157-161 | the `enumerate` loop yields one line per card, numbered from 1, in card order |
| CrApi.FmtPlayerDeck | cr_api.py:144-162 | the loop builds exactly the deck text: the header, then one numbered line per card, or the fixed notice for an empty deck |
| CrApi.DeckTextStartsWithHeader | cr_api.py:150-154 | the text always starts with the header; an empty deck adds only the notice |
| CrApi.CardLineNumbering | cr_api.py:161 | cards 1 to 9 are numbered with a leading space to two columns |
| CrApi.NormTagShape | cr_api.py:166-167 | a normalised tag has no leading `#` and no lower-case ASCII letter |
| CrApi.NormTag | cr_api.py:166-167 | defined as stripping whitespace, upper-casing and dropping leading `#`, in that order; its shape is stated in `CrApi.NormTagShape` |
| CrApi.NormTagNotIdempotent | cr_api.py:166-167 | normalising is not idempotent: `"# a"` gives `" A"`, which normalises further to `"A"` |
| CrApi.DeckKeys | cr_api.py:170-177 | the loop yields the lower-cased identifier (id, else key, else name) of each card that has one, in order, and never more keys than cards |
| CrApi.CardKeysLength | cr_api.py:170-177 | at most one key per card, and exactly one per card iff every card has an identifier |
| CrApi.CardKeysMembership | cr_api.py:173-176 | a key is produced exactly when some card's lower-cased identifier is that key |
| CrApi.CardKeysAppend | cr_api.py:173-176 | keys follow the card order over concatenated card lists |
| CrApi.DeckSimilarity | cr_api.py:180-185 | 0 when either list is empty; otherwise 8 times the similarity is the number of shared distinct keys |
| CrApi.DeckSimilaritySymmetric | cr_api.py:180-185 | the similarity is symmetric |
| CrApi.DeckSimilarityAtMostOne | cr_api.py:180-185 | the similarity is at most 1 when either deck has at most eight distinct keys |
| CrApi.ExactMeansEightShared | cr_api.py:220 | the `>= 0.999` test holds exactly when eight distinct keys are shared |
| CrApi.SelfSimilarity | cr_api.py:180-185 | a deck compared with itself scores its distinct keys over 8, so above 1 beyond eight distinct keys |
| CrApi.FirstCardsOfFirstMatch | cr_api.py:191-195 | the search returns the cards of the first participant whose normalised tag matches, and `[]` when none does |
| CrApi.TeamBeforeOpponent | cr_api.py:191-193 | a match in `team` wins over any match in `opponent` |
| CrApi.ExtractPlayerCards | cr_api.py:188-195 | the nested loop with early return computes exactly that search |
| CrApi.HistoryDecksAppend | cr_api.py:201-204 | the decks of two consecutive runs of battles are the decks of each, in order |
| CrApi.HistoryPrefixWindow | cr_api.py:201-207 | for `n >= 1`, the decks of the battles scanned up to the stopping point are the first `min(n, ·)` decks of the whole log |
| CrApi.HistoryWindow | cr_api.py:201-207 | where the scan stops, the decks gathered are the first `n` history decks (for `n >= 1`), or the decks of the first battle (for `n < 1`) |
| CrApi.LastNDecks | cr_api.py:198-207 | for `n >= 1`, the first `min(n, ·)` non-empty decks in battle order; for `n < 1`, those of the first battle only |
| CrApi.Largest | cr_api.py:224 | `max` returns an element that bounds all the others |
| CrApi.CountAtLeast | cr_api.py:220 | the exact count never exceeds the number of similarities |
| CrApi.Summary | cr_api.py:217-226 | the aggregate of a similarity list: the count, `0 <= avg <= best`, `best` is a member bounding all, `avg` is the mean, and `exact <= count` |
| CrApi.Similarities | cr_api.py:219 | one similarity per historical deck, in order |
| CrApi.DeckMatchReport | cr_api.py:210-226 | the zero report without history; otherwise the count, mean, best and exact count of the similarities of the current deck's keys |
| CrApi.SimilaritiesNonNegative | cr_api.py:219 | every similarity is non-negative |
| CrApi.ExactCountsFullOverlaps | cr_api.py:220 | `exact` counts exactly the historical decks sharing eight distinct keys with the current deck |
| CrApi.LookUpOutcomes | ui.py:272-290 | a clan search that raised ends the lookup with its error; otherwise the lookup ends as `InClanOutcome` says for the clan answer |
| CrApi.LookUpInClanOutcomes | ui.py:274-290 | once the clan search has answered: clan suggestions (at most five) exactly when it gave no tag; roster names (at most ten) exactly when the roster search answered with no tag; an error exactly when the roster or profile request raised; a profile exactly when both answered, and then it is the profile of the player that roster search found in that clan |
| CrApi.LookUp | ui.py:272-290 | defined as the clan search, then `LookUpInClan` when it answered, or the error it raised |
| CrApi.LookUpInClan | ui.py:274-290 | defined as the clan suggestions without a clan tag, otherwise the roster search, then `LookUpProfile` when it answered, or its error |
| CrApi.LookUpProfile | ui.py:283-290 | defined as the roster names without a player tag, otherwise the profile request's answer or its error |
| CrApi.ResolveClanVia | cr_api.py:103-110 | defined as one clan search by name with limit 20, then `ResolveClan` on its items, or the error it raised |
| CrApi.ResolvePlayerVia | cr_api.py:124-131 | defined as one roster request on the clan's members path, then `ResolvePlayer` on its items, or the error it raised |
| Ocr.Crop | scan.py:20-22 | a crop never has more rows than the frame; inside the frame it has exactly `h` rows, each the clipped slice of the frame row |
| Ocr.CropInBounds | ui.py:228-231 | a region inside the frame crops to `h` rows of `w` pixels, each the frame pixel at the same offset |
| Ocr.Recognise | ui.py:82-93 | the loop produces exactly the reading of the word table: the stripped non-empty words joined by single spaces, and the mean of the confidences that parse |
| Ocr.ReadingTextShape | scan.py:44-54 | the text has no whitespace at either end and only single spaces inside, and it is empty exactly when no token had a non-blank text |
| Ocr.ReadingConfidenceRange | scan.py:49-55 | the confidence is 0.0 without parsable confidences, and otherwise lies within their range |
| Ocr.Words | scan.py:45-48 | each word kept is non-empty and has no whitespace at either end |
| Ocr.ClanReading | ui.py:100-104 | the single-line reading is kept once its confidence reaches 30; otherwise the block reading is used |
| Ocr.FallbackCanLowerConfidence | ui.py:100-104 | the fallback can replace a weak line reading with an even weaker block reading |
| Ocr.SearchAlnum | ui.py:108 | `re.search(r"[A-Za-z0-9]", s)` finds the first ASCII letter or digit, or none exists |
| Ocr.Plausible | ui.py:107-108 | plausible exactly when non-empty, at least `minlen` long, and containing an ASCII letter or digit (`scan.py:58-59` is the same function) |
| Debounce.Observe | ui.py:253-259 | a frame yields its pair exactly when both readings are plausible and both confidences reach the floor |
| Debounce.Advance | ui.py:259-264 | a repeated pair increments `stable`; a new pair sets it to 1 and becomes `last_pair`; a gated-out frame resets it to 0; a lookup starts exactly when `stable >= need` and the pair differs from `last_resolved`, which then becomes that pair |
| Debounce.ReplaySnoc | ui.py:237-296 | replaying one more frame is one more step, and adds at most that frame's pair to the lookups |
| Debounce.LastResolvedIsLastLookup | ui.py:263-264 | after any frames, `last_resolved` is the last pair looked up, or the initial one |
| Debounce.LookupsNeverRepeatBackToBack | ui.py:263-264 | a lookup never repeats the pair looked up just before it |
| Debounce.SamePairAtMostOnce | ui.py:263-264 | while one pair is on screen it is looked up at most once, and not at all if it was already resolved |
| Debounce.StableCountsRepeats | ui.py:260 | `k` frames showing a new pair leave `stable == k` |
| Debounce.NewPairResolvedAtOnce | ui.py:200 | with the default need of 1, a new pair is looked up on the frame it first appears |
| Debounce.StableNonNegative | ui.py:260 | `stable` never goes negative |
| Ui.MentionsAnySome | ui.py:131 | `any(k in gm for k in keys)` holds exactly when some fragment occurs |
| Ui.IsLadderBattle | ui.py:112-135 | a battle passes exactly when it is a PvP battle with one participant a side, not a draft, not a challenge or friendly, in no clan-war mode and in a ladder-like mode |
| Ui.LadderIgnoresCase | ui.py:119-125 | lower-casing the type, mode name and deck selection first changes nothing |
| Ui.Insert | ui.py:153 | inserting into a sorted list keeps it sorted and adds exactly the element |
| Ui.Sorted | ui.py:153 | `costs.sort()` yields an ordered permutation |
| Ui.FourCardCycle | ui.py:147-154 | 0 with fewer than four costs; otherwise the sum of the four smallest costs |
| Ui.CheapestFour | ui.py:153-154 | the four summed costs come from the deck, and none is dearer than a cost left out |
| Ui.FavoriteCard | ui.py:157-162 | the favourite card when set; otherwise the first deck card; nothing when both are missing |
| Ui.FindIconUrl | ui.py:165-170 | a URL exactly when some preferred size has a non-empty one, and then that of the first such size |
| Ui.TallyOf | ui.py:176-186 | wins plus losses never exceed the number of battles |
| Ui.WinRate | ui.py:187-188 | 0 with no decided battle, otherwise exactly `wins / (wins + losses)`; it lies in [0, 1], is 1 when none is lost and 0 when none is won |
| Ui.PvpStatsLastN | ui.py:173-189 | the loop computes the tally of `battles[:n]` and its win rate, with at most `min(n, len)` decided battles |
| Ui.TallyAppend | ui.py:176-186 | tallies add up over consecutive runs of battles |
| Ui.DrawIsNeitherWinNorLoss | ui.py:183-186 | a drawn battle changes only the crown totals |
| Ui.FewerCrownsIsLoss | ui.py:183-186 | a battle with fewer crowns on the player's side adds one loss and no win |
| Ui.AllWonIsPerfect | ui.py:183-188 | winning every battle of a non-empty window gives a win rate of 1 |
| Ui.LadderBattlesMembership | ui.py:711-714 | a battle is kept exactly when it is in the log and passes the filter |
| Ui.CardDecks | ui.py:715-717 | only non-empty card lists are kept |
| Ui.LadderBattlesAppend | ui.py:711-714 | filtering distributes over concatenated logs |
| Ui.CardDecksAppend | ui.py:715-717 | kept decks distribute over concatenated battles |
| Ui.LadderHistory | ui.py:709-719 | the decks kept are the first ten non-empty card lists of the ladder battles, in order; the ladder battles kept are those of a prefix of the log, of the whole log when fewer than ten decks were found, and end with the battle that gave the tenth deck otherwise |
| Ui.HistoryRest | ui.py:711-719 | the decks of a prefix of the log begin the decks of the whole log |
| Ui.HistoryOutcome | ui.py:718-719 | where the loop stops, its results are the ten-deck window |
| Ui.DeckSimilarities | ui.py:724-738 | the loop scores the current deck against every historical deck, in order, by the shared distinct keys over 8 |
| Ui.ShowDeckStats | ui.py:724-743 | no figures without history; otherwise the loop's similarities give exactly `deck_match_report` of the current deck and the kept decks' keys |
| Ui.LookupEvents | ui.py:272-290 | each lookup ends with exactly one message, which is the deck exactly when the player was found |
| Ui.Scanner.Tick | ui.py:238-300 | one pass: the tracker moves as `Advance` over the gated readings (with the clan fallback); the queue grows by the readout, then on a lookup by loading-on, resolved, status, lookup message and loading-off |
| Ui.Scanner.Run | ui.py:233-301 | the start message, then one pass per frame, then the stop message |
| Ui.Scanner.RunStep | ui.py:237-296 | one more pass extends the tracker state and the queue of the passes before it by that pass alone |
| Ui.Scanner.constructor | ui.py:194-210 | a fresh scanner has the initial tracker and an empty queue |
| Ui.FrameAnnouncements | ui.py:263-293 | a pass announces a pair exactly when the tracker looks it up, and switches loading on and off once for it: the OCR line comes first, loading-on second and loading-off last; otherwise only the OCR line is logged |
| Ui.TickAnnouncements | ui.py:238-300 | the same for any pass, including one that raised: a resolving pass switches loading on as its second event and off as its last |
| Ui.RunStateIsReplay | ui.py:237-296 | after a run, the scanner's fields are the tracker replayed over the observed frames |
| Ui.RunAnnouncements | ui.py:237-296 | the pairs a run announces are exactly the tracker's lookups, and loading is switched on and off once per lookup |
| Ui.NoBackToBackAnnouncements | ui.py:263-264 | the thread never announces the same pair twice in a row |
| Scan.BoundingRegion | scan.py:80-89 | the computed region has `left >= 0`, `top >= 0`, `width >= 1` and `height >= 1` |
| Scan.CaptureRegion | scan.py:76-89 | a configured non-empty region is used when it has four values, and is an error otherwise; without one the bounding region is used |
| Scan.RelRoi | scan.py:92-94 | the relative region is shifted by the origin, and keeps its width and height |
| Scan.BoundingRegionContainsRois | scan.py:81-94 | with non-negative screen coordinates, both regions lie inside the computed region once made relative to it |
| Scan.CropOfRelativeRoi | scan.py:20-22 | cropping a grabbed frame at a relative region inside it gives `h` rows of `w` pixels, each the grabbed pixel at the same offset from the region's relative corner |
| Scan.LookupLines | scan.py:135-148 | a clan miss prints its suggestions, a roster miss the member names, an error its message; a found player prints the deck (headed by the clan display, or the OCR clan text when that is empty) and then the rule |
| Scan.ResolveAndShow | scan.py:135-148 | the clan search, roster search and profile request with their early exits print exactly those lines |
| Scan.ShowInClan | scan.py:136-148 | after the clan search, the clan miss, the roster request and its exits print exactly the lines of that outcome |
| Scan.ShowProfile | scan.py:140-148 | after the roster search, the player miss, the profile request and the deck print exactly the lines of that outcome |
| Scan.GateAndCount | scan.py:123-150 | the gate, the stability count and the repeat check give exactly the tracker step `Advance` with floor 40 and need 1 |
| Scan.ScanPass | scan.py:123-150 | one pass: the tracker moves as `Advance` with floor 40 and need 1, and the readout, detection and lookup lines are printed |
| Scan.ScanLoop | scan.py:109-158 | the loop prints the start line, then each frame's lines, and stops printing after the first interrupt |
| Scan.ScanMain | scan.py:76-89 | an unusable configured region stops before any output; otherwise the loop runs on the region chosen |
| Scan.LoopLinesStep | scan.py:109-158 | one frame of the loop's output |
| Scan.FrameDetections | scan.py:131-132 | a frame prints a detection exactly when the tracker looks its pair up |
| Scan.LoopStateIsReplay | scan.py:123-150 | the loop's tracker is the shared tracker replayed over the observed frames |
| Scan.DetectionsAreResolutions | scan.py:123-150 | the pairs printed as detected are exactly the tracker's lookups, whatever the lookups return |
| Scan.NoRepeatedDetection | scan.py:131-143 | a pair is never detected twice in a row: a clan miss, a player miss or an error does not make the next frame retry it |
| Scan.ResolvedPairStaysQuiet | scan.py:131-143 | once a pair is looked up, frames that keep showing it or are gated out print no detection |
| Scan.InterruptEndsLoop | scan.py:153-155 | frames after the first interrupt are never looked at, and the output ends with the stop line |

## Left out

- Image preprocessing (OpenCV), the Tesseract calls and screen capture are foreign calls. Each frame is given as the recogniser's post-processed readings.
- `Ui.Scanner.Tick` and `Scan.ScanPass` take the readings, not the raw word tables. The word-table post-processing is proved once, in `Ocr.Recognise`.
- The httpx client, the cache-busting timestamp and the one-second sleep are network and clock effects. The API is the `Directory` parameter, and the retry rule is modelled over given status codes in `CrApi.Get`.
- `time.sleep` between passes is left out. Threads, the stop event and the queue handoff are concurrency: the queue is an appended sequence, and a run is a finite sequence of frames.
- The Tk window is UI: widgets, icon download and cache, the loading bar, the history grid and `update_player_info`'s rendering.
- `_avg_elixir` rounds floats and is left out.
- `calibrate_roi.py`, `main.py`, `config.json` and `.env` loading, and the Tesseract path discovery are interactive or file I/O.
- `CrApi.Norm`: Unicode NFKD decomposition and the removal of combining marks are not applied. Case and whitespace handling cover ASCII letters and Python's whitespace set only.
- `Text.Upper`, `Text.Lower`: `str.upper()` and `str.lower()` are modelled on ASCII letters only, so `CrApi.CanonicalTag`, `CrApi.NormTag`, `CrApi.CardKey`, `CrApi.DeckKeys`, `Ui.IsLadderBattle` and `Ui.LadderIgnoresCase` hold for that mapping. Python's full mapping can lengthen a string (`"ß".upper() == "SS"`), so `CrApi.CanonicalTag`'s length bound and its "no lower-case letter" are stated for ASCII case only.
- Python floats (recognition confidences, similarities, means, the win rate) are exact reals: rounding is not modelled.
- `CrApi.ClosestMatch`: difflib's ratio itself is a parameter, not re-implemented.
- Message and line texts are structured values. No f-string, list repr or `:.0f` formatting is modelled.
- `Ui.FourCardCycle`: costs are integers. Float costs, the `isinstance` check and `int(round(...))` are not modelled.
- `Ui.PvpStatsLastN`: a crown count of JSON null (where `int(None)` raises) is not modelled. A missing count counts as 0.
- `Ui.FavoriteCard`: an empty favourite dictionary, which Python treats as missing, is not distinguished from a present card.
- JSON null and a missing key are one `None` throughout.
- `Scan.RelRoi`: coordinates are integers. The `map(int, …)` truncation of float coordinates is not modelled; the same holds for `Ocr.Crop`.
- `Scan.ScanLoop`: the program's `while True` loop runs over a finite sequence of frames.
- `Scan.ScanLoop`: `KeyboardInterrupt` is modelled as an interrupt frame, handled between passes only.
