/**
 * The structure check of the loaded texts (`validateTextsStructure`): an ordered list of
 * errors, empty exactly when every round, the final screen, the UI strings, the header and
 * the timeline carry the fields the game reads. Each error is a value of `TextError`;
 * `Message` spells it as the string the check reports.
 */
module ValidateTexts {
  import opened Common
  import opened JsString

  /** A parsed JSON value. */
  datatype Json =
    | JNull
    | JBool(b: bool)
    | JNum(n: real)
    | JStr(s: string)
    | JArr(items: seq<Json>)
    | JObj(fields: map<string, Json>)

  predicate IsDigit(c: char)
  {
    '0' <= c <= '9'
  }

  /** The value of a string of decimal digits; None when some character is not a digit. */
  function DigitsValue(s: string): (r: Option<int>)
    ensures r.Some? ==> forall i :: 0 <= i < |s| ==> IsDigit(s[i])
    ensures r.Some? ==> r.value >= 0
  {
    if |s| == 0 then Some(0)
    else
      var last := s[|s| - 1];
      match DigitsValue(s[..|s| - 1])
      case Some(v) => if IsDigit(last) then Some(10 * v + (last as int - '0' as int)) else None
      case None => None
  }

  /** A property key that names an array index: canonical decimal digits. */
  function ArrayIndex(key: string): (r: Option<int>)
    ensures r.Some? ==> |key| > 0 && forall i :: 0 <= i < |key| ==> IsDigit(key[i])
    ensures r.Some? ==> r.value >= 0
  {
    if |key| > 0 && (|key| == 1 || key[0] != '0') then DigitsValue(key) else None
  }

  /**
   * `value[key]`: an object's own field, an array's element at an index key, a string's
   * one-character string at an index key, and undefined (None) for anything else.
   */
  function Get(v: Json, key: string): (r: Option<Json>)
    ensures v.JObj? ==> (r.Some? <==> key in v.fields)
    ensures v.JObj? && key in v.fields ==> r == Some(v.fields[key])
    ensures !v.JObj? && !v.JArr? && !v.JStr? ==> r.None?
  {
    match v
    case JObj(fields) => if key in fields then Some(fields[key]) else None
    case JArr(items) => ElementAt(items, key)
    case JStr(s) => CodeUnitAt(s, key)
    case _ => None
  }

  /** `array[key]`: the element at a canonical index key below the length. */
  function ElementAt(items: seq<Json>, key: string): Option<Json>
  {
    match ArrayIndex(key)
    case Some(i) => if i < |items| then Some(items[i]) else None
    case None => None
  }

  /** `string[key]`: the one-character string at a canonical index key below the length. */
  function CodeUnitAt(s: string, key: string): Option<Json>
  {
    match ArrayIndex(key)
    case Some(i) => if i < |s| then Some(JStr([s[i]])) else None
    case None => None
  }

  /**
   * Indexing an array or a string by a key: defined exactly for a canonical index below the
   * length, giving the element, or the one-character string at that position.
   */
  lemma GetIndexed(v: Json, key: string)
    requires v.JArr? || v.JStr?
    ensures Get(v, key).Some? <==>
            ArrayIndex(key).Some? && ArrayIndex(key).value < (if v.JArr? then |v.items| else |v.s|)
    ensures v.JArr? && Get(v, key).Some? ==> Get(v, key).value == v.items[ArrayIndex(key).value]
    ensures v.JStr? && Get(v, key).Some? ==> Get(v, key).value == JStr([v.s[ArrayIndex(key).value]])
  {
  }

  /** JavaScript truthiness; undefined (None) is falsy. NaN is not modelled. */
  predicate Truthy(v: Option<Json>)
  {
    match v
    case None => false
    case Some(JNull) => false
    case Some(JBool(b)) => b
    case Some(JNum(n)) => n != 0.0
    case Some(JStr(s)) => s != ""
    case Some(_) => true
  }

  /** Some character of s is not white space. */
  predicate HasVisibleChar(s: string)
  {
    |s| > 0 && (!IsWhitespace(s[0]) || HasVisibleChar(s[1..]))
  }

  /** A string trims to something exactly when it has a character that is not white space. */
  lemma {:induction false} VisibleIffNotBlank(s: string)
    ensures HasVisibleChar(s) <==> !IsBlank(s)
  {
    BlankIffAllWhitespace(s);
    if |s| > 0 {
      VisibleIffNotBlank(s[1..]);
      BlankIffAllWhitespace(s[1..]);
      if forall i :: 0 <= i < |s| ==> IsWhitespace(s[i]) {
        assert forall i :: 0 <= i < |s[1..]| ==> IsWhitespace(s[1..][i]) by {
          forall i | 0 <= i < |s[1..]| ensures IsWhitespace(s[1..][i]) {
            assert s[1..][i] == s[i + 1];
          }
        }
      } else if IsWhitespace(s[0]) {
        var i :| 0 <= i < |s| && !IsWhitespace(s[i]);
        assert s[1..][i - 1] == s[i];
      }
    }
  }

  /**
   * Passes `!v || typeof v !== 'string' || v.trim() === ''`: a string that does not trim to
   * nothing (`VisibleIffNotBlank`).
   */
  predicate NonBlankString(v: Option<Json>)
  {
    v.Some? && v.value.JStr? && HasVisibleChar(v.value.s)
  }

  /** Passes `!v || typeof v !== 'string'`: whitespace-only strings pass. */
  predicate NonEmptyString(v: Option<Json>)
  {
    v.Some? && v.value.JStr? && v.value.s != ""
  }

  /** Passes `!v || typeof v !== 'object'` (arrays are objects; null is falsy). */
  predicate ObjectLike(v: Option<Json>)
  {
    Truthy(v) && (v.value.JObj? || v.value.JArr?)
  }

  const FINAL_KEYS: seq<string> :=
    ["mapText", "endingText", "authorshipText", "illustrationsCredit", "playAgain", "myWebsite", "illustratorButton"]
  const UI_KEYS: seq<string> := ["next", "start", "startGame", "nextRound"]
  const TIMELINE_KEYS: seq<string> := ["title", "axisYears", "axisTime", "achievementsTitle", "roundLabel", "yearLabel"]
  const MILESTONE_KEYS: seq<string> :=
    ["sedentary", "crops", "domestication", "writing", "trade", "epidemics", "technology", "governance"]

  /** The rounds 1..8 and zones 1..5 the validator walks through. */
  const ROUND_COUNT: nat := 8
  const ZONE_COUNT: nat := 5

  /** The key of round or zone n, `String(n)`. */
  function NumberKey(n: nat): string
  {
    DecimalString(n)
  }

  /** `round${r}`. */
  function RoundTitleKey(r: nat): string
  {
    "round" + DecimalString(r)
  }

  // ---------------------------------------------------------------------------
  // Errors and their messages
  // ---------------------------------------------------------------------------

  datatype TextError =
    | TextsMissing
    | RoundsMissing
    | RoundMissing(round: nat)
    | RoundTextMissing(field: string, round: nat)
    | ZoneTextsInvalid(round: nat)
    | ZoneTextMissing(zone: nat, round: nat)
    | SectionMissing(section: string)
    | KeyInvalid(path: string, key: string)
    | HeaderTitleMissing(field: string)
    | RoundTitlesInvalid
    | RoundTitleMissing(round: nat)
    | MilestonesInvalid

  /** The message the check reports for an error. */
  function Message(e: TextError): string
  {
    match e
    case TextsMissing => "Texts data is null or undefined"
    case RoundsMissing => "Missing 'rounds' object"
    case RoundMissing(r) => "Missing data for round " + NumberKey(r)
    case RoundTextMissing(f, r) => "Missing or empty " + f + " for round " + NumberKey(r)
    case ZoneTextsInvalid(r) => "Missing or invalid zoneTexts for round " + NumberKey(r)
    case ZoneTextMissing(z, r) => "Missing or empty zoneTexts[" + NumberKey(z) + "] for round " + NumberKey(r)
    case SectionMissing(s) => "Missing '" + s + "' object"
    case KeyInvalid(p, k) => "Missing or invalid " + p + k
    case HeaderTitleMissing(f) => "Missing or empty header." + f
    case RoundTitlesInvalid => "Missing or invalid header.roundTitles object"
    case RoundTitleMissing(r) => "Missing or empty header.roundTitles." + RoundTitleKey(r)
    case MilestonesInvalid => "Missing or invalid timeline.milestones object"
  }

  /** The strings `validateTextsStructure` returns: each error's message, in order. */
  function Messages(errors: seq<TextError>): (m: seq<string>)
    ensures |m| == |errors| && forall i :: 0 <= i < |errors| ==> m[i] == Message(errors[i])
  {
    seq(|errors|, i requires 0 <= i < |errors| => Message(errors[i]))
  }

  /** `piece(0) + ... + piece(n - 1)`: the errors of the first n iterations of a loop. */
  function Concat(n: nat, piece: nat -> seq<TextError>): seq<TextError>
  {
    if n == 0 then [] else Concat(n - 1, piece) + piece(n - 1)
  }

  /** A loop reports nothing exactly when none of its iterations does. */
  lemma {:induction false} ConcatEmpty(n: nat, piece: nat -> seq<TextError>)
    ensures Concat(n, piece) == [] <==> forall i :: 0 <= i < n ==> piece(i) == []
  {
    if n > 0 {
      ConcatEmpty(n - 1, piece);
      assert Concat(n, piece) == Concat(n - 1, piece) + piece(n - 1);
    }
  }

  /** Appending to a report in two steps appends the two parts in order. */
  lemma AppendAssoc(a: seq<TextError>, b: seq<TextError>, c: seq<TextError>)
    ensures (a + b) + c == a + (b + c)
  {
  }

  function Check(ok: bool, e: TextError): seq<TextError>
  {
    if ok then [] else [e]
  }

  // ---------------------------------------------------------------------------
  // The errors, check by check
  // ---------------------------------------------------------------------------

  /** The i-th key of a list, checked for a non-empty string. */
  function KeyPiece(obj: Json, path: string, keys: seq<string>): nat -> seq<TextError>
  {
    (i: nat) => if i < |keys| then Check(NonEmptyString(Get(obj, keys[i])), KeyInvalid(path, keys[i])) else []
  }

  /** Zone z of a round's zone texts holds a non-blank string. */
  predicate ZoneTextPresent(zoneTexts: Json, z: nat)
  {
    NonBlankString(Get(zoneTexts, NumberKey(z)))
  }

  /** The i-th iteration of the zone loop checks zone i + 1. */
  function ZonePiece(zoneTexts: Json, round: nat): nat -> seq<TextError>
  {
    (i: nat) => Check(ZoneTextPresent(zoneTexts, i + 1), ZoneTextMissing(i + 1, round))
  }

  /** The errors of zones 1..n of a round's zone texts, in order. */
  function ZoneErrors(zoneTexts: Json, round: nat, n: nat): seq<TextError>
  {
    Concat(n, ZonePiece(zoneTexts, round))
  }

  /** The errors of the three narrative texts of round r's data d. */
  function RoundTextErrors(d: Json, r: nat): seq<TextError>
  {
    Check(NonBlankString(Get(d, "introText")), RoundTextMissing("introText", r)) +
    Check(NonBlankString(Get(d, "preChoiceText")), RoundTextMissing("preChoiceText", r)) +
    Check(NonBlankString(Get(d, "postChoiceText")), RoundTextMissing("postChoiceText", r))
  }

  /** The errors of round r's zone texts: one error when they are not an object. */
  function ZoneTextErrors(d: Json, r: nat): seq<TextError>
  {
    var zoneTexts := Get(d, "zoneTexts");
    if !ObjectLike(zoneTexts) then [ZoneTextsInvalid(r)] else ZoneErrors(zoneTexts.value, r, ZONE_COUNT)
  }

  /** The errors of round r: a missing round gives one error and nothing else. */
  function RoundError(rounds: Json, r: nat): seq<TextError>
  {
    var roundData := Get(rounds, NumberKey(r));
    if !Truthy(roundData) then [RoundMissing(r)]
    else RoundTextErrors(roundData.value, r) + ZoneTextErrors(roundData.value, r)
  }

  /** The i-th iteration of the round loop checks round i + 1. */
  function RoundPiece(rounds: Json): nat -> seq<TextError>
  {
    (i: nat) => RoundError(rounds, i + 1)
  }

  /** The errors of rounds 1..n, in order. */
  function RoundErrors(rounds: Json, n: nat): seq<TextError>
  {
    Concat(n, RoundPiece(rounds))
  }

  /** The errors of round titles 1..n, in order. */
  function RoundTitleErrors(roundTitles: Json, n: nat): seq<TextError>
  {
    if n == 0 then []
    else RoundTitleErrors(roundTitles, n - 1) + Check(NonBlankString(Get(roundTitles, RoundTitleKey(n))), RoundTitleMissing(n))
  }

  /** A section whose listed keys must hold non-empty strings. */
  function KeySectionErrors(t: Json, section: string, keys: seq<string>): seq<TextError>
  {
    var obj := Get(t, section);
    if !Truthy(obj) then [SectionMissing(section)] else Concat(|keys|, KeyPiece(obj.value, section + ".", keys))
  }

  /** The errors of the header's round titles: one error when they are not an object. */
  function RoundTitlesErrors(h: Json): seq<TextError>
  {
    var roundTitles := Get(h, "roundTitles");
    if !ObjectLike(roundTitles) then [RoundTitlesInvalid] else RoundTitleErrors(roundTitles.value, ROUND_COUNT)
  }

  function HeaderErrors(t: Json): seq<TextError>
  {
    var header := Get(t, "header");
    if !Truthy(header) then [SectionMissing("header")]
    else
      var h := header.value;
      Check(NonBlankString(Get(h, "introTitle")), HeaderTitleMissing("introTitle")) +
      Check(NonBlankString(Get(h, "endingTitle")), HeaderTitleMissing("endingTitle")) +
      RoundTitlesErrors(h)
  }

  function TimelineErrors(t: Json): seq<TextError>
  {
    var timeline := Get(t, "timeline");
    if !Truthy(timeline) then [SectionMissing("timeline")]
    else
      var tl := timeline.value;
      Concat(|TIMELINE_KEYS|, KeyPiece(tl, "timeline.", TIMELINE_KEYS)) +
      var milestones := Get(tl, "milestones");
      if !ObjectLike(milestones) then [MilestonesInvalid]
      else Concat(|MILESTONE_KEYS|, KeyPiece(milestones.value, "timeline.milestones.", MILESTONE_KEYS))
  }

  /**
   * All errors in check order. A falsy input gives one error; a missing `rounds` gives one
   * error and stops; otherwise rounds, final, ui, header and timeline follow.
   */
  function ValidationErrors(texts: Option<Json>): (errors: seq<TextError>)
    ensures !Truthy(texts) ==> errors == [TextsMissing]
    ensures Truthy(texts) && !Truthy(Get(texts.value, "rounds")) ==> errors == [RoundsMissing]
  {
    if !Truthy(texts) then [TextsMissing]
    else
      var t := texts.value;
      var rounds := Get(t, "rounds");
      if !Truthy(rounds) then [RoundsMissing]
      else
        RoundErrors(rounds.value, ROUND_COUNT) + KeySectionErrors(t, "final", FINAL_KEYS) +
        KeySectionErrors(t, "ui", UI_KEYS) + HeaderErrors(t) + TimelineErrors(t)
  }

  // ---------------------------------------------------------------------------
  // The independent statement of well-formed texts
  // ---------------------------------------------------------------------------

  /** The zone texts are an object with a non-blank text for each zone 1..5. */
  predicate ZoneTextsWellFormed(d: Json)
  {
    ObjectLike(Get(d, "zoneTexts")) &&
    forall z :: 1 <= z <= 5 ==> ZoneTextPresent(Get(d, "zoneTexts").value, z)
  }

  /** Round r has an entry with three non-blank texts and five non-blank zone texts. */
  predicate RoundWellFormed(rounds: Json, r: nat)
  {
    var roundData := Get(rounds, NumberKey(r));
    Truthy(roundData) &&
    NonBlankString(Get(roundData.value, "introText")) &&
    NonBlankString(Get(roundData.value, "preChoiceText")) &&
    NonBlankString(Get(roundData.value, "postChoiceText")) &&
    ZoneTextsWellFormed(roundData.value)
  }

  /** Every key of the list holds a non-empty string (whitespace-only strings pass). */
  predicate HasKeys(section: Option<Json>, keys: seq<string>)
  {
    Truthy(section) && forall k :: k in keys ==> NonEmptyString(Get(section.value, k))
  }

  /** The round titles are an object with a non-blank title for each round 1..8. */
  predicate RoundTitlesWellFormed(h: Json)
  {
    ObjectLike(Get(h, "roundTitles")) &&
    forall r :: 1 <= r <= 8 ==> NonBlankString(Get(Get(h, "roundTitles").value, RoundTitleKey(r)))
  }

  predicate HeaderWellFormed(header: Option<Json>)
  {
    Truthy(header) &&
    NonBlankString(Get(header.value, "introTitle")) &&
    NonBlankString(Get(header.value, "endingTitle")) &&
    RoundTitlesWellFormed(header.value)
  }

  predicate TimelineWellFormed(timeline: Option<Json>)
  {
    HasKeys(timeline, TIMELINE_KEYS) &&
    ObjectLike(Get(timeline.value, "milestones")) &&
    HasKeys(Get(timeline.value, "milestones"), MILESTONE_KEYS)
  }

  /** Texts the game can run on, stated field by field. */
  predicate WellFormed(texts: Option<Json>)
  {
    Truthy(texts) &&
    Truthy(Get(texts.value, "rounds")) &&
    (forall r :: 1 <= r <= 8 ==> RoundWellFormed(Get(texts.value, "rounds").value, r)) &&
    HasKeys(Get(texts.value, "final"), FINAL_KEYS) &&
    HasKeys(Get(texts.value, "ui"), UI_KEYS) &&
    HeaderWellFormed(Get(texts.value, "header")) &&
    TimelineWellFormed(Get(texts.value, "timeline"))
  }

  lemma KeysEmpty(obj: Json, path: string, keys: seq<string>)
    ensures Concat(|keys|, KeyPiece(obj, path, keys)) == [] <==> forall k :: k in keys ==> NonEmptyString(Get(obj, k))
  {
    var piece := KeyPiece(obj, path, keys);
    ConcatEmpty(|keys|, piece);
    if forall i :: 0 <= i < |keys| ==> piece(i) == [] {
      forall k | k in keys ensures NonEmptyString(Get(obj, k)) {
        var i :| 0 <= i < |keys| && keys[i] == k;
        assert piece(i) == [];
      }
    } else {
      var i :| 0 <= i < |keys| && piece(i) != [];
      assert keys[i] in keys && !NonEmptyString(Get(obj, keys[i]));
    }
  }

  lemma KeySectionEmpty(t: Json, section: string, keys: seq<string>)
    ensures KeySectionErrors(t, section, keys) == [] <==> HasKeys(Get(t, section), keys)
  {
    var obj := Get(t, section);
    if Truthy(obj) {
      KeysEmpty(obj.value, section + ".", keys);
    }
  }

  lemma ZoneErrorsEmpty(zoneTexts: Json, round: nat, n: nat)
    ensures ZoneErrors(zoneTexts, round, n) == [] <==> forall z :: 1 <= z <= n ==> ZoneTextPresent(zoneTexts, z)
  {
    var piece := ZonePiece(zoneTexts, round);
    ConcatEmpty(n, piece);
    if forall z :: 1 <= z <= n ==> ZoneTextPresent(zoneTexts, z) {
      forall i | 0 <= i < n ensures piece(i) == [] {
        assert ZoneTextPresent(zoneTexts, i + 1);
      }
    } else {
      var z :| 1 <= z <= n && !ZoneTextPresent(zoneTexts, z);
      assert piece(z - 1) != [];
    }
  }

  lemma ZoneTextErrorsEmpty(d: Json, r: nat)
    ensures ZoneTextErrors(d, r) == [] <==> ZoneTextsWellFormed(d)
  {
    var zoneTexts := Get(d, "zoneTexts");
    if ObjectLike(zoneTexts) {
      ZoneErrorsEmpty(zoneTexts.value, r, ZONE_COUNT);
    }
  }

  lemma RoundErrorEmpty(rounds: Json, r: nat)
    ensures RoundError(rounds, r) == [] <==> RoundWellFormed(rounds, r)
  {
    var roundData := Get(rounds, NumberKey(r));
    if Truthy(roundData) {
      ZoneTextErrorsEmpty(roundData.value, r);
    }
  }

  /** Rounds 1..n report nothing exactly when each of them is well formed. */
  lemma {:induction false} RoundsEmptyUpTo(rounds: Json, n: nat)
    ensures RoundErrors(rounds, n) == [] <==> forall r :: 1 <= r <= n ==> RoundWellFormed(rounds, r)
  {
    if n > 0 {
      var earlier := RoundErrors(rounds, n - 1);
      var last := RoundError(rounds, n);
      RoundsEmptyUpTo(rounds, n - 1);
      RoundErrorEmpty(rounds, n);
      assert RoundErrors(rounds, n) == earlier + last;
      assert |RoundErrors(rounds, n)| == |earlier| + |last|;
      if RoundErrors(rounds, n) == [] {
        forall r | 1 <= r <= n ensures RoundWellFormed(rounds, r) {
          if r < n {
            assert 1 <= r <= n - 1;
          }
        }
      } else if earlier != [] {
        var r :| 1 <= r <= n - 1 && !RoundWellFormed(rounds, r);
      } else {
        assert !RoundWellFormed(rounds, n);
      }
    }
  }

  /** Rounds 1..8 report nothing exactly when each of them is well formed. */
  lemma AllRoundsEmpty(rounds: Json)
    ensures RoundErrors(rounds, ROUND_COUNT) == [] <==> forall r :: 1 <= r <= 8 ==> RoundWellFormed(rounds, r)
  {
    RoundsEmptyUpTo(rounds, ROUND_COUNT);
  }

  lemma {:induction false} RoundTitleErrorsEmpty(roundTitles: Json, n: nat)
    ensures RoundTitleErrors(roundTitles, n) == [] <==>
            forall r :: 1 <= r <= n ==> NonBlankString(Get(roundTitles, RoundTitleKey(r)))
  {
    if n > 0 {
      RoundTitleErrorsEmpty(roundTitles, n - 1);
    }
  }

  lemma RoundTitlesErrorsEmpty(h: Json)
    ensures RoundTitlesErrors(h) == [] <==> RoundTitlesWellFormed(h)
  {
    var roundTitles := Get(h, "roundTitles");
    if ObjectLike(roundTitles) {
      RoundTitleErrorsEmpty(roundTitles.value, ROUND_COUNT);
    }
  }

  lemma HeaderEmpty(t: Json)
    ensures HeaderErrors(t) == [] <==> HeaderWellFormed(Get(t, "header"))
  {
    var header := Get(t, "header");
    if Truthy(header) {
      RoundTitlesErrorsEmpty(header.value);
    }
  }

  lemma TimelineEmpty(t: Json)
    ensures TimelineErrors(t) == [] <==> TimelineWellFormed(Get(t, "timeline"))
  {
    var timeline := Get(t, "timeline");
    if Truthy(timeline) {
      KeysEmpty(timeline.value, "timeline.", TIMELINE_KEYS);
      var milestones := Get(timeline.value, "milestones");
      if ObjectLike(milestones) {
        KeysEmpty(milestones.value, "timeline.milestones.", MILESTONE_KEYS);
      }
    }
  }

  /**
   * The validator reports nothing exactly when the texts are well formed: every check it
   * makes is one conjunct of `WellFormed`, and every conjunct is checked.
   */
  lemma NoErrorsIffWellFormed(texts: Option<Json>)
    ensures ValidationErrors(texts) == [] <==> WellFormed(texts)
  {
    if Truthy(texts) && Truthy(Get(texts.value, "rounds")) {
      var t := texts.value;
      AllRoundsEmpty(Get(t, "rounds").value);
      KeySectionEmpty(t, "final", FINAL_KEYS);
      KeySectionEmpty(t, "ui", UI_KEYS);
      HeaderEmpty(t);
      TimelineEmpty(t);
    }
  }

  // ---------------------------------------------------------------------------
  // The validator
  // ---------------------------------------------------------------------------

  /** Appends the errors of a key list checked for non-empty strings. */
  method CheckKeys(errors: seq<TextError>, obj: Json, path: string, keys: seq<string>) returns (r: seq<TextError>)
    ensures r == errors + Concat(|keys|, KeyPiece(obj, path, keys))
  {
    r := errors;
    for i := 0 to |keys|
      invariant r == errors + Concat(i, KeyPiece(obj, path, keys))
    {
      var piece := KeyPiece(obj, path, keys)(i);
      assert piece == Check(NonEmptyString(Get(obj, keys[i])), KeyInvalid(path, keys[i]));
      if !NonEmptyString(Get(obj, keys[i])) {
        r := r + [KeyInvalid(path, keys[i])];
      }
      assert r == (errors + Concat(i, KeyPiece(obj, path, keys))) + piece;
      AppendAssoc(errors, Concat(i, KeyPiece(obj, path, keys)), piece);
    }
  }

  /** Appends the errors of the three narrative texts of a round. */
  method CheckRoundTexts(errors: seq<TextError>, d: Json, round: nat) returns (r: seq<TextError>)
    ensures r == errors + RoundTextErrors(d, round)
  {
    var intro := Check(NonBlankString(Get(d, "introText")), RoundTextMissing("introText", round));
    var pre := Check(NonBlankString(Get(d, "preChoiceText")), RoundTextMissing("preChoiceText", round));
    var post := Check(NonBlankString(Get(d, "postChoiceText")), RoundTextMissing("postChoiceText", round));
    r := errors;
    if !NonBlankString(Get(d, "introText")) {
      r := r + [RoundTextMissing("introText", round)];
    }
    assert r == errors + intro;
    if !NonBlankString(Get(d, "preChoiceText")) {
      r := r + [RoundTextMissing("preChoiceText", round)];
    }
    assert r == (errors + intro) + pre;
    if !NonBlankString(Get(d, "postChoiceText")) {
      r := r + [RoundTextMissing("postChoiceText", round)];
    }
    assert r == ((errors + intro) + pre) + post;
    AppendAssoc(errors, intro, pre);
    AppendAssoc(errors, intro + pre, post);
  }

  /** Appends the errors of a round's zone texts, zone by zone. */
  method CheckZoneTexts(errors: seq<TextError>, d: Json, round: nat) returns (r: seq<TextError>)
    ensures r == errors + ZoneTextErrors(d, round)
  {
    var zoneTexts := Get(d, "zoneTexts");
    if !ObjectLike(zoneTexts) {
      return errors + [ZoneTextsInvalid(round)];
    }
    r := errors;
    for zone := 1 to ZONE_COUNT + 1
      invariant r == errors + ZoneErrors(zoneTexts.value, round, zone - 1)
    {
      assert ZoneErrors(zoneTexts.value, round, zone) ==
             ZoneErrors(zoneTexts.value, round, zone - 1) + ZonePiece(zoneTexts.value, round)(zone - 1);
      if !ZoneTextPresent(zoneTexts.value, zone) {
        r := r + [ZoneTextMissing(zone, round)];
      }
    }
  }

  /** Appends the errors of one round; a missing round is reported once and skipped. */
  method CheckRound(errors: seq<TextError>, rounds: Json, round: nat) returns (r: seq<TextError>)
    ensures r == errors + RoundError(rounds, round)
  {
    var roundData := Get(rounds, NumberKey(round));
    if !Truthy(roundData) {
      return errors + [RoundMissing(round)];
    }
    var d := roundData.value;
    r := CheckRoundTexts(errors, d, round);
    r := CheckZoneTexts(r, d, round);
    AppendAssoc(errors, RoundTextErrors(d, round), ZoneTextErrors(d, round));
  }

  /** Appends the errors of the header's round titles, round by round. */
  method CheckRoundTitles(errors: seq<TextError>, h: Json) returns (r: seq<TextError>)
    ensures r == errors + RoundTitlesErrors(h)
  {
    var roundTitles := Get(h, "roundTitles");
    if !ObjectLike(roundTitles) {
      return errors + [RoundTitlesInvalid];
    }
    r := errors;
    for round := 1 to ROUND_COUNT + 1
      invariant r == errors + RoundTitleErrors(roundTitles.value, round - 1)
    {
      if !NonBlankString(Get(roundTitles.value, RoundTitleKey(round))) {
        r := r + [RoundTitleMissing(round)];
      }
    }
  }

  /** Appends the errors of the header section. */
  method CheckHeader(errors: seq<TextError>, t: Json) returns (r: seq<TextError>)
    ensures r == errors + HeaderErrors(t)
  {
    var header := Get(t, "header");
    if !Truthy(header) {
      return errors + [SectionMissing("header")];
    }
    var h := header.value;
    var intro := Check(NonBlankString(Get(h, "introTitle")), HeaderTitleMissing("introTitle"));
    var ending := Check(NonBlankString(Get(h, "endingTitle")), HeaderTitleMissing("endingTitle"));
    r := errors;
    if !NonBlankString(Get(h, "introTitle")) {
      r := r + [HeaderTitleMissing("introTitle")];
    }
    assert r == errors + intro;
    if !NonBlankString(Get(h, "endingTitle")) {
      r := r + [HeaderTitleMissing("endingTitle")];
    }
    assert r == (errors + intro) + ending;
    r := CheckRoundTitles(r, h);
    AppendAssoc(errors, intro, ending);
    AppendAssoc(errors, intro + ending, RoundTitlesErrors(h));
  }

  /** Appends the errors of a section whose listed keys must hold non-empty strings. */
  method CheckKeySection(errors: seq<TextError>, t: Json, section: string, keys: seq<string>) returns (r: seq<TextError>)
    ensures r == errors + KeySectionErrors(t, section, keys)
  {
    var obj := Get(t, section);
    if !Truthy(obj) {
      r := errors + [SectionMissing(section)];
    } else {
      r := CheckKeys(errors, obj.value, section + ".", keys);
    }
  }

  /** Appends the errors of the timeline section. */
  method CheckTimeline(errors: seq<TextError>, t: Json) returns (r: seq<TextError>)
    ensures r == errors + TimelineErrors(t)
  {
    var timeline := Get(t, "timeline");
    if !Truthy(timeline) {
      return errors + [SectionMissing("timeline")];
    }
    var tl := timeline.value;
    var keyErrors := Concat(|TIMELINE_KEYS|, KeyPiece(tl, "timeline.", TIMELINE_KEYS));
    r := CheckKeys(errors, tl, "timeline.", TIMELINE_KEYS);
    var milestones := Get(tl, "milestones");
    ghost var rest: seq<TextError>;
    if !ObjectLike(milestones) {
      r := r + [MilestonesInvalid];
      rest := [MilestonesInvalid];
    } else {
      r := CheckKeys(r, milestones.value, "timeline.milestones.", MILESTONE_KEYS);
      rest := Concat(|MILESTONE_KEYS|, KeyPiece(milestones.value, "timeline.milestones.", MILESTONE_KEYS));
    }
    assert TimelineErrors(t) == keyErrors + rest;
    AppendAssoc(errors, keyErrors, rest);
  }

  /**
   * `validateTextsStructure(texts)`: every error in the order the checks run; the strings
   * returned are `Messages(errors)`.
   */
  method ValidateTextsStructure(texts: Option<Json>) returns (errors: seq<TextError>)
    ensures errors == ValidationErrors(texts)
    ensures errors == [] <==> WellFormed(texts)
  {
    NoErrorsIffWellFormed(texts);
    if !Truthy(texts) {
      return [TextsMissing];
    }
    var t := texts.value;
    var rounds := Get(t, "rounds");
    if !Truthy(rounds) {
      return [RoundsMissing];
    }
    errors := [];
    for round := 1 to ROUND_COUNT + 1
      invariant errors == RoundErrors(rounds.value, round - 1)
    {
      errors := CheckRound(errors, rounds.value, round);
    }
    errors := CheckKeySection(errors, t, "final", FINAL_KEYS);
    errors := CheckKeySection(errors, t, "ui", UI_KEYS);
    errors := CheckHeader(errors, t);
    errors := CheckTimeline(errors, t);
  }
}
