/** What both front ends do with a captured frame before the directory is
    asked: cropping a region of interest, turning Tesseract's word table
    into one text and one confidence, the ocr_clan fallback between the
    line and the block reading, and the plausibility gate. The recogniser
    itself is a black box whose word table is an input. */
module Ocr {
  import opened Py
  import opened Text

  // ------------------------------------------------------------------
  // Cropping
  // ------------------------------------------------------------------

  /** `img[y:y+h, x:x+w]` on a frame stored row by row. Out-of-range bounds
      are clipped as Python clips them. */
  function Crop<T>(frame: seq<seq<T>>, x: int, y: int, w: int, h: int): (c: seq<seq<T>>)
    ensures |c| <= |frame|
    ensures 0 <= y && 0 <= h && y + h <= |frame| ==> |c| == h
    ensures 0 <= y && 0 <= h && y + h <= |frame| ==>
              forall i :: 0 <= i < h ==> c[i] == Slice(frame[y + i], x, x + w)
  {
    var rows := Slice(frame, y, y + h);
    seq(|rows|, i requires 0 <= i < |rows| => Slice(rows[i], x, x + w))
  }

  /** A region lying inside a frame whose rows are all at least `x + w` wide
      crops to exactly `h` rows of `w` pixels, each the pixel at the same
      offset from `(x, y)`. */
  lemma CropInBounds<T>(frame: seq<seq<T>>, x: int, y: int, w: int, h: int)
    requires 0 <= x && 0 <= y && 0 <= w && 0 <= h && y + h <= |frame|
    requires forall r :: 0 <= r < |frame| ==> x + w <= |frame[r]|
    ensures |Crop(frame, x, y, w, h)| == h
    ensures forall i :: 0 <= i < h ==> |Crop(frame, x, y, w, h)[i]| == w
    ensures forall i, j :: 0 <= i < h && 0 <= j < w ==> Crop(frame, x, y, w, h)[i][j] == frame[y + i][x + j]
  {
  }

  // ------------------------------------------------------------------
  // Post-processing of the recogniser's word table
  // ------------------------------------------------------------------

  /** One row of the word table: its text (None for a missing entry) and its
      confidence, None when `float(...)` of the entry fails. */
  datatype Token = Token(text: Option<string>, conf: Option<real>)

  /** A post-processed reading: the text and the mean confidence. */
  datatype Reading = Reading(text: string, conf: real)

  /** The recognised words: every token text, stripped, that is not empty. */
  function Words(tokens: seq<Token>): (ws: seq<string>)
    ensures |ws| <= |tokens|
    ensures forall i :: 0 <= i < |ws| ==> ws[i] != [] && !IsSpace(ws[i][0]) && !IsSpace(ws[i][|ws[i]| - 1])
  {
    if tokens == [] then []
    else
      var t := Strip(OrElse(tokens[|tokens| - 1].text, ""));
      Words(tokens[..|tokens| - 1]) + (if t != [] then [t] else [])
  }

  /** The confidences that parse, of the tokens whose word is kept. */
  function Confidences(tokens: seq<Token>): (cs: seq<real>)
    ensures |cs| <= |Words(tokens)|
  {
    if tokens == [] then []
    else
      var last := tokens[|tokens| - 1];
      var t := Strip(OrElse(last.text, ""));
      Confidences(tokens[..|tokens| - 1]) + (if t != [] && last.conf.Some? then [last.conf.value] else [])
  }

  /** What `_ocr_psm` and `ocr_line` return for a word table. */
  function ReadingOf(tokens: seq<Token>): Reading
  {
    Reading(CollapseSpaces(Strip(Join(Words(tokens), " "))), Mean(Confidences(tokens)))
  }

  /** `_ocr_psm` / `ocr_line` after the recogniser: one pass over the table
      collecting the words and the confidences that parse. */
  method Recognise(tokens: seq<Token>) returns (r: Reading)
    ensures r == ReadingOf(tokens)
  {
    var words: seq<string> := [];
    var confs: seq<real> := [];
    for i := 0 to |tokens|
      invariant words == Words(tokens[..i])
      invariant confs == Confidences(tokens[..i])
    {
      assert tokens[..i + 1][..i] == tokens[..i];
      var t := Strip(OrElse(tokens[i].text, ""));
      if t != [] {
        words := words + [t];
        if tokens[i].conf.Some? {
          confs := confs + [tokens[i].conf.value];
        }
      }
    }
    assert tokens[..|tokens|] == tokens;
    var text := CollapseSpaces(Strip(Join(words, " ")));
    var conf := if confs != [] then Sum(confs) / |confs| as real else 0.0;
    r := Reading(text, conf);
  }

  /** The joined words are all whitespace only when there are no words. */
  lemma JoinedWordsBlank(ws: seq<string>)
    requires forall i :: 0 <= i < |ws| ==> ws[i] != [] && !IsSpace(ws[i][0])
    ensures AllSpace(Join(ws, " ")) <==> ws == []
  {
    if ws != [] {
      JoinEnds(ws, " ");
    }
  }

  /** The text of a reading has no whitespace at either end, its only
      whitespace is single spaces, and it is empty exactly when no token had
      a non-blank text. */
  lemma ReadingTextShape(tokens: seq<Token>)
    ensures var s := ReadingOf(tokens).text;
      (s == [] || (!IsSpace(s[0]) && !IsSpace(s[|s| - 1]))) &&
      (forall i :: 0 <= i < |s| && IsSpace(s[i]) ==> s[i] == ' ') &&
      (forall i :: 0 <= i < |s| - 1 ==> !(IsSpace(s[i]) && IsSpace(s[i + 1])))
    ensures ReadingOf(tokens).text == [] <==> Words(tokens) == []
  {
    var j := Join(Words(tokens), " ");
    StripEmpty(j);
    JoinedWordsBlank(Words(tokens));
  }

  /** The confidence is 0.0 when no kept token has a parsable confidence,
      and otherwise lies within the range of those confidences. */
  lemma ReadingConfidenceRange(tokens: seq<Token>, lo: real, hi: real)
    requires forall i :: 0 <= i < |tokens| && tokens[i].conf.Some? ==> lo <= tokens[i].conf.value <= hi
    ensures Confidences(tokens) == [] ==> ReadingOf(tokens).conf == 0.0
    ensures Confidences(tokens) != [] ==> lo <= ReadingOf(tokens).conf <= hi
  {
    ConfidencesFrom(tokens, lo, hi);
    if Confidences(tokens) != [] {
      MeanBounds(Confidences(tokens), lo, hi);
    }
  }

  lemma {:induction false} ConfidencesFrom(tokens: seq<Token>, lo: real, hi: real)
    requires forall i :: 0 <= i < |tokens| && tokens[i].conf.Some? ==> lo <= tokens[i].conf.value <= hi
    ensures forall i :: 0 <= i < |Confidences(tokens)| ==> lo <= Confidences(tokens)[i] <= hi
  {
    if tokens != [] {
      ConfidencesFrom(tokens[..|tokens| - 1], lo, hi);
    }
  }

  /** `ocr_clan` keeps the single-line reading once its confidence reaches this. */
  const LineConfidenceFloor: real := 30.0

  /** `ocr_clan`: the single-line reading when it is confident enough,
      otherwise the block reading (whatever its confidence). */
  function ClanReading(line: Reading, block: Reading): (r: Reading)
    ensures r == line <== line.conf >= LineConfidenceFloor
    ensures r == block <== line.conf < LineConfidenceFloor
  {
    if line.conf >= LineConfidenceFloor then line else block
  }

  /** The fallback does not pick the more confident reading: a weak line
      reading is replaced even by a weaker block reading. */
  lemma FallbackCanLowerConfidence()
    ensures ClanReading(Reading("ABC", 20.0), Reading("XYZ", 10.0)).conf < 20.0
  {
  }

  // ------------------------------------------------------------------
  // Plausibility gate
  // ------------------------------------------------------------------

  /** The default minimum length of a plausible reading. */
  const MinPlausibleLength: int := 3

  /** `re.search(r"[A-Za-z0-9]", s)`: the first ASCII letter or digit. */
  function SearchAlnum(s: string): (k: Option<nat>)
    ensures k.Some? ==> k.value < |s| && IsAsciiAlnum(s[k.value])
    ensures k.Some? ==> forall j :: 0 <= j < k.value ==> !IsAsciiAlnum(s[j])
    ensures k.None? ==> forall j :: 0 <= j < |s| ==> !IsAsciiAlnum(s[j])
  {
    if s == [] then None
    else if IsAsciiAlnum(s[0]) then Some(0)
    else
      match SearchAlnum(s[1..])
      case None => None
      case Some(k) => Some(k + 1)
  }

  /** `plausible(s, minlen)` */
  function Plausible(s: string, minLen: int): (b: bool)
    ensures b <==> s != [] && |s| >= minLen && exists i :: 0 <= i < |s| && IsAsciiAlnum(s[i])
  {
    s != [] && |s| >= minLen && SearchAlnum(s).Some?
  }
}
