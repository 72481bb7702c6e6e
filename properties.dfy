/**
  Properties of the MR-231-3 conversion that relate several calls or
  whole sentences: where the type tag comes from, which parts of a
  sentence are never read, a sentence builder that the converter inverts,
  and the sentences of the converter's unit tests.
 */
module Mr231_3Properties {
  import opened Wrappers
  import opened JavaText
  import opened SearadarApi
  import opened Mr231_3

  // -----------------------------------------------------------------------
  // Framing

  /**
    Only the text between the three-character preamble and the first `*`
    matters: the preamble's characters and everything after the `*` (the
    checksum, never verified) are not read.
   */
  lemma TokensOfFrame(preamble: string, body: string, checksum: string)
    requires |preamble| == 3 && '*' !in preamble && '*' !in body
    ensures Tokens(preamble + body + "*" + checksum) == Success(Split(Trim(body), ','))
  {
    var msg := preamble + body + "*" + checksum;
    assert msg == (preamble + body) + ("*" + checksum);
    assert '*' !in preamble + body;
    IndexOfAppend(preamble + body, "*" + checksum, '*');
    assert IndexOf(msg, '*') == 3 + |body|;
    assert msg[3..3 + |body|] == body;
  }

  /**
    The message type is the text before the first comma of the trimmed
    body (all of it when there is no comma, empty when the body starts
    with a comma), whenever the split yields a token at all.
   */
  lemma MessageTypeIsFirstToken(preamble: string, body: string, checksum: string)
    requires |preamble| == 3 && '*' !in preamble && '*' !in body
    requires Split(Trim(body), ',') != []
    ensures Tokens(preamble + body + "*" + checksum).Success?
    ensures |Tokens(preamble + body + "*" + checksum).value| >= 1
    ensures Tokens(preamble + body + "*" + checksum).value[0] ==
      var t := Trim(body); if ',' in t then t[..IndexOf(t, ',')] else t
  {
    TokensOfFrame(preamble, body, checksum);
    SplitFirst(Trim(body), ',');
  }

  /**
    A body that starts with a comma after trimming has the empty message
    type, which is neither TTM nor RSD: nothing is emitted.
   */
  lemma LeadingCommaIsIgnored(N: Numerics, preamble: string, body: string, checksum: string)
    requires |preamble| == 3 && '*' !in preamble && '*' !in body
    requires |Trim(body)| > 0 && Trim(body)[0] == ',' && Split(Trim(body), ',') != []
    ensures Decode(N, preamble + body + "*" + checksum) == Success([])
  {
    MessageTypeIsFirstToken(preamble, body, checksum);
    assert IndexOf(Trim(body), ',') == 0;
  }

  /**
    The remaining case: a body that trims to commas only splits into no
    token, and reading the type throws on index 0.
   */
  lemma OnlyCommasFails(N: Numerics, preamble: string, body: string, checksum: string)
    requires |preamble| == 3 && '*' !in preamble && '*' !in body
    requires |Trim(body)| > 0 && forall k :: 0 <= k < |Trim(body)| ==> Trim(body)[k] == ','
    ensures Decode(N, preamble + body + "*" + checksum) == Failure(ArrayIndexOutOfBounds(0))
  {
    TokensOfFrame(preamble, body, checksum);
    SplitOfSeparators(Trim(body), ',');
  }

  /** A sentence whose first `*` is missing or lies inside the preamble throws before anything is emitted. */
  lemma NoDelimiterFails(N: Numerics, message: string)
    requires !('*' in message && IndexOf(message, '*') >= 3)
    ensures Decode(N, message) == Failure(StringIndexOutOfBounds(3, IndexOf(message, '*')))
  {
  }

  // -----------------------------------------------------------------------
  // Sentences built from tokens

  /** A token the builder may place in a sentence: no comma and no `*`. */
  predicate IsField(t: string) {
    ',' !in t && '*' !in t
  }

  /** `$RA`, the tokens separated by commas, `*`, the checksum. */
  function Sentence(tokens: seq<string>, checksum: string): (s: string)
    requires |tokens| >= 1
    ensures |s| == 4 + |Join(tokens, ',')| + |checksum|
    ensures s[..3] == "$RA" && s[3 + |Join(tokens, ',')|] == '*'
  {
    "$RA" + Join(tokens, ',') + "*" + checksum
  }

  /**
    A sentence of comma- and star-free tokens comes apart into those
    tokens, less any empty ones at the end, provided trimming removes
    nothing: the first token starts with a non-blank character and the
    last one, unless empty, ends with one.
   */
  lemma SentenceTokens(tokens: seq<string>, checksum: string)
    requires |tokens| >= 1
    requires forall k :: 0 <= k < |tokens| ==> IsField(tokens[k])
    requires tokens[0] != "" && !IsBlank(tokens[0][0])
    requires var last := tokens[|tokens| - 1]; last != "" ==> !IsBlank(last[|last| - 1])
    ensures Tokens(Sentence(tokens, checksum)) == Success(DropTrailingEmpty(tokens))
    ensures |DropTrailingEmpty(tokens)| >= 1 && DropTrailingEmpty(tokens)[0] == tokens[0]
  {
    var body := Join(tokens, ',');
    JoinAvoids(tokens, ',', '*');
    JoinBounds(tokens, ',');
    assert Trimmed(body);
    TokensOfFrame("$RA", body, checksum);
    SplitAllJoin(tokens, ',');
    if ',' !in body {
      assert |tokens| == 1;
    }
  }

  /**
    A sentence as above whose last token is not empty converts exactly
    as its token list does.
   */
  lemma DecodeSentence(N: Numerics, tokens: seq<string>, checksum: string)
    requires |tokens| >= 1
    requires forall k :: 0 <= k < |tokens| ==> IsField(tokens[k])
    requires tokens[0] != "" && !IsBlank(tokens[0][0])
    requires tokens[|tokens| - 1] != "" && !IsBlank(tokens[|tokens| - 1][|tokens[|tokens| - 1]| - 1])
    ensures Tokens(Sentence(tokens, checksum)) == Success(tokens)
    ensures Decode(N, Sentence(tokens, checksum)) == DecodeFields(N, tokens)
  {
    SentenceTokens(tokens, checksum);
  }

  /** A sentence whose tokens form a valid TTM record yields exactly that record. */
  lemma DecodeTtmTokens(N: Numerics, message: string, fields: seq<string>)
    requires Tokens(message) == Success(fields)
    requires |fields| > 0 && fields[0] == "TTM" && DecodeTTM(N, fields).Success?
    ensures Decode(N, message) == Success([TrackedTarget(DecodeTTM(N, fields).value)])
  {
  }

  /** A sentence whose tokens form a valid RSD record yields exactly that record after the scale check. */
  lemma DecodeRsdTokens(N: Numerics, message: string, fields: seq<string>)
    requires Tokens(message) == Success(fields)
    requires |fields| > 0 && fields[0] == "RSD" && DecodeRSD(N, fields).Success?
    ensures Decode(N, message) == Success([Validated(N, DecodeRSD(N, fields).value)])
    ensures CheckRSD(N, DecodeRSD(N, fields).value).None? ==>
      Decode(N, message) == Success([RadarSystemData(DecodeRSD(N, fields).value)])
    ensures CheckRSD(N, DecodeRSD(N, fields).value).Some? ==>
      Decode(N, message) == Success([Invalid(CheckRSD(N, DecodeRSD(N, fields).value).value)])
  {
  }

  // -----------------------------------------------------------------------
  // A sentence builder the converter inverts

  /** The identity code the converter reads back as `iff`. */
  function IffLetter(iff: Iff): (code: string)
    ensures IffCode(code) == iff
    ensures IsField(code) && |code| == 1 && !IsBlank(code[0])
  {
    match iff
    case Friend => "b"
    case Foe => "p"
    case Unknown => "d"
  }

  /** The status code the converter reads back as `status`. */
  function StatusLetter(status: TargetStatus): (code: string)
    ensures StatusCode(code) == status
    ensures IsField(code) && |code| == 1 && !IsBlank(code[0])
  {
    match status
    case Lost => "L"
    case UnreliableData => "Q"
    case Tracked => "T"
  }

  /** `d` prints as a token that parses back to `d`. */
  predicate PrintsBack(N: Numerics, d: Double) {
    IsField(N.doubleToString(d)) && N.parseDouble(N.doubleToString(d)) == Some(d)
  }

  /** The tokens of a TTM sentence for `m`; unread positions hold fixed units or nothing. */
  function TtmTokens(N: Numerics, intToString: int32 -> string, m: TrackedTargetMessage): (t: seq<string>)
    ensures |t| == 13 && t[0] == "TTM"
  {
    ["TTM", intToString(m.targetNumber),
     N.doubleToString(m.distance), N.doubleToString(m.bearing), "T",
     N.doubleToString(m.speed), N.doubleToString(m.course), "T", "", "", "N",
     IffLetter(m.iff), StatusLetter(m.status)]
  }

  /** The tokens of an RSD sentence for `m`; positions 5 to 8 are left empty. */
  function RsdTokens(N: Numerics, m: RadarSystemDataMessage): (t: seq<string>)
    ensures |t| == 15 && t[0] == "RSD"
  {
    ["RSD",
     N.doubleToString(m.initialDistance), N.doubleToString(m.initialBearing),
     N.doubleToString(m.movingCircleOfDistance), N.doubleToString(m.bearing),
     "", "", "", "",
     N.doubleToString(m.distanceFromShip), N.doubleToString(m.bearing2),
     N.doubleToString(m.distanceScale),
     m.distanceUnit, m.displayOrientation, m.workingMode]
  }

  /**
    Every tracked-target report (the classification is always Unknown)
    whose numbers print as tokens that parse back is what the converter
    makes of its TTM sentence, whatever the checksum.
   */
  lemma TtmRoundTrip(N: Numerics, intToString: int32 -> string, m: TrackedTargetMessage, checksum: string)
    requires m.targetType == TargetType.Unknown
    requires IsField(intToString(m.targetNumber)) && N.parseInt(intToString(m.targetNumber)) == Some(m.targetNumber)
    requires PrintsBack(N, m.distance) && PrintsBack(N, m.bearing)
    requires PrintsBack(N, m.speed) && PrintsBack(N, m.course)
    ensures Decode(N, Sentence(TtmTokens(N, intToString, m), checksum)) == Success([TrackedTarget(m)])
  {
    var t := TtmTokens(N, intToString, m);
    assert IsField(t[0]) && IsField(t[1]) && IsField(t[2]) && IsField(t[3]) && IsField(t[4]);
    assert IsField(t[5]) && IsField(t[6]) && IsField(t[7]) && IsField(t[8]) && IsField(t[9]);
    assert IsField(t[10]) && IsField(t[11]) && IsField(t[12]);
    DecodeSentence(N, t, checksum);
    TtmDecodesTo(N, t, m);
  }

  /**
    Every radar-system-data report whose numbers print back and whose
    three text fields are comma- and star-free (the last one non-empty
    and not ending in a blank) converts back from its RSD sentence: to
    itself when its range scale is legal, otherwise to the diagnostic.
   */
  lemma RsdRoundTrip(N: Numerics, m: RadarSystemDataMessage, checksum: string)
    requires PrintsBack(N, m.initialDistance) && PrintsBack(N, m.initialBearing)
    requires PrintsBack(N, m.movingCircleOfDistance) && PrintsBack(N, m.bearing)
    requires PrintsBack(N, m.distanceFromShip) && PrintsBack(N, m.bearing2)
    requires PrintsBack(N, m.distanceScale)
    requires IsField(m.distanceUnit) && IsField(m.displayOrientation) && IsField(m.workingMode)
    requires m.workingMode != "" && !IsBlank(m.workingMode[|m.workingMode| - 1])
    ensures Decode(N, Sentence(RsdTokens(N, m), checksum)) == Success([Validated(N, m)])
  {
    var t := RsdTokens(N, m);
    RsdTokensAreFields(N, m);
    RsdTokensDecode(N, m);
    SentenceTokens(t, checksum);
    DecodeRsdTokens(N, Sentence(t, checksum), t);
  }

  lemma RsdTokensAreFields(N: Numerics, m: RadarSystemDataMessage)
    requires PrintsBack(N, m.initialDistance) && PrintsBack(N, m.initialBearing)
    requires PrintsBack(N, m.movingCircleOfDistance) && PrintsBack(N, m.bearing)
    requires PrintsBack(N, m.distanceFromShip) && PrintsBack(N, m.bearing2)
    requires PrintsBack(N, m.distanceScale)
    requires IsField(m.distanceUnit) && IsField(m.displayOrientation) && IsField(m.workingMode)
    requires m.workingMode != "" && !IsBlank(m.workingMode[|m.workingMode| - 1])
    ensures var t := RsdTokens(N, m);
      && (forall k :: 0 <= k < |t| ==> IsField(t[k]))
      && DropTrailingEmpty(t) == t
  {
    var t := RsdTokens(N, m);
    assert IsField(t[0]) && IsField(t[1]) && IsField(t[2]) && IsField(t[3]) && IsField(t[4]);
    assert IsField(t[5]) && IsField(t[6]) && IsField(t[7]) && IsField(t[8]) && IsField(t[9]);
    assert IsField(t[10]) && IsField(t[11]) && IsField(t[12]) && IsField(t[13]) && IsField(t[14]);
  }

  lemma RsdTokensDecode(N: Numerics, m: RadarSystemDataMessage)
    requires PrintsBack(N, m.initialDistance) && PrintsBack(N, m.initialBearing)
    requires PrintsBack(N, m.movingCircleOfDistance) && PrintsBack(N, m.bearing)
    requires PrintsBack(N, m.distanceFromShip) && PrintsBack(N, m.bearing2)
    requires PrintsBack(N, m.distanceScale)
    ensures DecodeRSD(N, RsdTokens(N, m)) == Success(m)
  {
    RsdDecodesTo(N, RsdTokens(N, m), m);
  }

  /** A token list whose read positions hold `m`'s values, as tokens that parse to them, decodes to `m`. */
  lemma RsdDecodesTo(N: Numerics, f: seq<string>, m: RadarSystemDataMessage)
    requires |f| >= 15
    requires N.parseDouble(f[1]) == Some(m.initialDistance) && N.parseDouble(f[2]) == Some(m.initialBearing)
    requires N.parseDouble(f[3]) == Some(m.movingCircleOfDistance) && N.parseDouble(f[4]) == Some(m.bearing)
    requires N.parseDouble(f[9]) == Some(m.distanceFromShip) && N.parseDouble(f[10]) == Some(m.bearing2)
    requires N.parseDouble(f[11]) == Some(m.distanceScale)
    requires f[12] == m.distanceUnit && f[13] == m.displayOrientation && f[14] == m.workingMode
    ensures DecodeRSD(N, f) == Success(m)
  {
  }

  /** The same for a TTM token list and a report whose classification is Unknown. */
  lemma TtmDecodesTo(N: Numerics, f: seq<string>, m: TrackedTargetMessage)
    requires |f| >= 13 && m.targetType == TargetType.Unknown
    requires N.parseInt(f[1]) == Some(m.targetNumber)
    requires N.parseDouble(f[2]) == Some(m.distance) && N.parseDouble(f[3]) == Some(m.bearing)
    requires N.parseDouble(f[5]) == Some(m.speed) && N.parseDouble(f[6]) == Some(m.course)
    requires IffCode(f[11]) == m.iff && StatusCode(f[12]) == m.status
    ensures DecodeTTM(N, f) == Success(m)
  {
  }

  // -----------------------------------------------------------------------
  // Which exception a short or malformed token list ends with

  /** The positions an RSD decode parses as numbers. */
  const RsdNumberPositions: set<int> := {1, 2, 3, 4, 9, 10, 11}

  /** The first position an RSD decode reads that a list of `n` tokens lacks. */
  function RsdFirstMissing(n: nat): (i: int)
    ensures n <= 14 ==> n <= i <= 14 && i in RsdNumberPositions + {12, 13, 14}
    ensures n <= 14 ==> forall k :: n <= k < i ==> k !in RsdNumberPositions + {12, 13, 14}
  {
    if n <= 1 then 1 else if n <= 4 then n else if n <= 9 then 9 else if n <= 14 then n else -1
  }

  /**
    A TTM token list shorter than 13 fails on the code tokens before any
    number is parsed; a long enough one fails only on a number token that
    does not parse, the first of 1, 2, 3, 5, 6 to do so.
   */
  lemma TtmFailureKinds(N: Numerics, fields: seq<string>)
    ensures |fields| < 13 ==>
      DecodeTTM(N, fields) == Failure(ArrayIndexOutOfBounds(if |fields| <= 11 then 11 else 12))
    ensures |fields| >= 13 && DecodeTTM(N, fields).Failure? ==>
      var e := DecodeTTM(N, fields).error;
      if !ParsesInt(N, fields[1]) then e == NumberFormat(fields[1])
      else if !ParsesDouble(N, fields[2]) then e == NumberFormat(fields[2])
      else if !ParsesDouble(N, fields[3]) then e == NumberFormat(fields[3])
      else if !ParsesDouble(N, fields[5]) then e == NumberFormat(fields[5])
      else e == NumberFormat(fields[6]) && !ParsesDouble(N, fields[6])
  {
  }

  /**
    An RSD token list fails either on a number token among 1 to 4 and 9
    to 11 that does not parse, or on the first read position past its
    end; positions 12 to 14 are reached only after all seven numbers
    parsed.
   */
  lemma RsdFailureKinds(N: Numerics, fields: seq<string>)
    ensures DecodeRSD(N, fields).Failure? && DecodeRSD(N, fields).error.ArrayIndexOutOfBounds? ==>
      var i := DecodeRSD(N, fields).error.index;
      i == RsdFirstMissing(|fields|) &&
      forall k :: 1 <= k < |fields| && k in RsdNumberPositions ==> ParsesDouble(N, fields[k])
    ensures DecodeRSD(N, fields).Failure? && DecodeRSD(N, fields).error.NumberFormat? ==>
      exists k :: k in RsdNumberPositions && k < |fields| &&
        DecodeRSD(N, fields).error.token == fields[k] && !ParsesDouble(N, fields[k])
  {
  }

  // -----------------------------------------------------------------------
  // Tokens that are never read

  /** A TTM decode depends on the token count and tokens 1, 2, 3, 5, 6, 11 and 12 only. */
  lemma TtmReadsOnlyItsPositions(N: Numerics, f: seq<string>, g: seq<string>)
    requires |f| == |g|
    requires forall i :: i in {1, 2, 3, 5, 6, 11, 12} && i < |f| ==> f[i] == g[i]
    ensures DecodeTTM(N, f) == DecodeTTM(N, g)
  {
    if |f| >= 13 {
      assert f[1] == g[1] && f[2] == g[2] && f[3] == g[3] && f[5] == g[5];
      assert f[6] == g[6] && f[11] == g[11] && f[12] == g[12];
    }
  }

  /**
    An RSD decode depends on the token count and tokens 1 to 4 and 9 to
    14 only: tokens 5 to 8 are never read.
   */
  lemma RsdReadsOnlyItsPositions(N: Numerics, f: seq<string>, g: seq<string>)
    requires |f| == |g|
    requires forall i :: i in {1, 2, 3, 4, 9, 10, 11, 12, 13, 14} && i < |f| ==> f[i] == g[i]
    ensures DecodeRSD(N, f) == DecodeRSD(N, g)
  {
    var slots := [1, 2, 3, 4, 9, 10, 11, 12, 13, 14];
    forall k | 0 <= k < |slots| && slots[k] < |f| ensures f[slots[k]] == g[slots[k]] {
      assert slots[k] in {1, 2, 3, 4, 9, 10, 11, 12, 13, 14};
    }
  }

  // -----------------------------------------------------------------------
  // The sentences of the converter's unit tests

  const TtmSampleFields: seq<string> :=
    ["TTM", "66", "28.71", "341.1", "T", "57.6", "024.5", "T", "0.4", "4.1", "N", "b", "L", "", "457362", "\U{2013}\U{00EA}"]

  /** $RATTM,66,28.71,341.1,T,57.6,024.5,T,0.4,4.1,N,b,L,,457362,<U+2013 U+00EA>*42 */
  const TtmSample := Sentence(TtmSampleFields, "42")

  /** The TTM test sentence gives target 66, a friend, lost, at 28.71 / 341.1 moving 57.6 on 24.5. */
  lemma TtmSampleDecodes(N: Numerics)
    requires N.parseInt("66") == Some(66 as int32)
    requires N.parseDouble("28.71") == Some(Finite(28.71)) && N.parseDouble("341.1") == Some(Finite(341.1))
    requires N.parseDouble("57.6") == Some(Finite(57.6)) && N.parseDouble("024.5") == Some(Finite(24.5))
    ensures Decode(N, TtmSample) == Success([TrackedTarget(TrackedTargetMessage(
      66, Finite(28.71), Finite(341.1), Finite(57.6), Finite(24.5), Lost, Friend, TargetType.Unknown))])
  {
    TtmSampleTokens();
    TtmSampleFieldsDecode(N);
  }

  lemma TtmSampleTokens()
    ensures Tokens(TtmSample) == Success(TtmSampleFields)
  {
    var t := TtmSampleFields;
    assert forall k :: 0 <= k < |t| ==> IsField(t[k]);
    DecodeSentence(Numerics(_ => None, _ => None, _ => ""), t, "42");
  }

  lemma TtmSampleFieldsDecode(N: Numerics)
    requires N.parseInt("66") == Some(66 as int32)
    requires N.parseDouble("28.71") == Some(Finite(28.71)) && N.parseDouble("341.1") == Some(Finite(341.1))
    requires N.parseDouble("57.6") == Some(Finite(57.6)) && N.parseDouble("024.5") == Some(Finite(24.5))
    ensures DecodeTTM(N, TtmSampleFields) == Success(TrackedTargetMessage(
      66, Finite(28.71), Finite(341.1), Finite(57.6), Finite(24.5), Lost, Friend, TargetType.Unknown))
  {
    var t := TtmSampleFields;
    assert t[1] == "66" && t[2] == "28.71" && t[3] == "341.1";
    assert t[5] == "57.6" && t[6] == "024.5" && t[11] == "b" && t[12] == "L";
    TtmDecodesTo(N, t, TrackedTargetMessage(
      66, Finite(28.71), Finite(341.1), Finite(57.6), Finite(24.5), Lost, Friend, TargetType.Unknown));
  }

  const RsdSampleFields: seq<string> :=
    ["RSD", "36.5", "331.4", "8.4", "320.6", "", "", "", "", "11.6", "185.3", "96.0", "N", "N", "S"]

  /** $RARSD,36.5,331.4,8.4,320.6,,,,,11.6,185.3,96.0,N,N,S*33 */
  const RsdSample := Sentence(RsdSampleFields, "33")

  /** The RSD test sentence has the legal scale 96.0 and gives its report. */
  lemma RsdSampleDecodes(N: Numerics)
    requires N.parseDouble("36.5") == Some(Finite(36.5)) && N.parseDouble("331.4") == Some(Finite(331.4))
    requires N.parseDouble("8.4") == Some(Finite(8.4)) && N.parseDouble("320.6") == Some(Finite(320.6))
    requires N.parseDouble("11.6") == Some(Finite(11.6)) && N.parseDouble("185.3") == Some(Finite(185.3))
    requires N.parseDouble("96.0") == Some(Finite(96.0))
    ensures Decode(N, RsdSample) == Success([RadarSystemData(RadarSystemDataMessage(
      Finite(36.5), Finite(331.4), Finite(8.4), Finite(320.6), Finite(11.6), Finite(185.3), Finite(96.0),
      "N", "N", "S"))])
  {
    RsdSampleFieldsDecode(N);
    RsdSampleTokens();
    DecodeRsdTokens(N, RsdSample, RsdSampleFields);
  }

  lemma RsdSampleTokens()
    ensures Tokens(RsdSample) == Success(RsdSampleFields)
  {
    var t := RsdSampleFields;
    assert forall k :: 0 <= k < |t| ==> IsField(t[k]);
    DecodeSentence(Numerics(_ => None, _ => None, _ => ""), t, "33");
  }

  lemma RsdSampleFieldsDecode(N: Numerics)
    requires N.parseDouble("36.5") == Some(Finite(36.5)) && N.parseDouble("331.4") == Some(Finite(331.4))
    requires N.parseDouble("8.4") == Some(Finite(8.4)) && N.parseDouble("320.6") == Some(Finite(320.6))
    requires N.parseDouble("11.6") == Some(Finite(11.6)) && N.parseDouble("185.3") == Some(Finite(185.3))
    requires N.parseDouble("96.0") == Some(Finite(96.0))
    ensures DecodeRSD(N, RsdSampleFields) == Success(RadarSystemDataMessage(
      Finite(36.5), Finite(331.4), Finite(8.4), Finite(320.6), Finite(11.6), Finite(185.3), Finite(96.0),
      "N", "N", "S"))
  {
    var t := RsdSampleFields;
    assert t[1] == "36.5" && t[2] == "331.4" && t[3] == "8.4" && t[4] == "320.6";
    assert t[9] == "11.6" && t[10] == "185.3" && t[11] == "96.0";
    RsdDecodesTo(N, t, RadarSystemDataMessage(
      Finite(36.5), Finite(331.4), Finite(8.4), Finite(320.6), Finite(11.6), Finite(185.3), Finite(96.0),
      "N", "N", "S"));
  }

  const RsdWrongScaleFields: seq<string> :=
    ["RSD", "14.0", "0.0", "96.9", "306.4", "", "", "", "", "97.7", "11.6", "0.3", "K", "N", "S"]

  /** $RARSD,14.0,0.0,96.9,306.4,,,,,97.7,11.6,0.3,K,N,S*20 */
  const RsdWrongScaleSample := Sentence(RsdWrongScaleFields, "20")

  /** The scale 0.3 is not a legal setting: the test sentence gives only the diagnostic. */
  lemma RsdWrongScaleSampleIsInvalid(N: Numerics)
    requires N.parseDouble("14.0") == Some(Finite(14.0)) && N.parseDouble("0.0") == Some(Finite(0.0))
    requires N.parseDouble("96.9") == Some(Finite(96.9)) && N.parseDouble("306.4") == Some(Finite(306.4))
    requires N.parseDouble("97.7") == Some(Finite(97.7)) && N.parseDouble("11.6") == Some(Finite(11.6))
    requires N.parseDouble("0.3") == Some(Finite(0.3)) && N.doubleToString(Finite(0.3)) == "0.3"
    ensures Decode(N, RsdWrongScaleSample) ==
      Success([Invalid(InvalidMessage("RSD message. Wrong distance scale value: 0.3"))])
  {
    RsdWrongScaleFieldsDecode(N);
    WrongScaleMessage(N);
    RsdWrongScaleTokens();
    DecodeRsdTokens(N, RsdWrongScaleSample, RsdWrongScaleFields);
  }

  lemma WrongScaleMessage(N: Numerics)
    requires N.doubleToString(Finite(0.3)) == "0.3"
    ensures CheckRSD(N, RadarSystemDataMessage(
      Finite(14.0), Finite(0.0), Finite(96.9), Finite(306.4), Finite(97.7), Finite(11.6), Finite(0.3),
      "K", "N", "S")) == Some(InvalidMessage("RSD message. Wrong distance scale value: 0.3"))
  {
    assert 0.3 !in AllowedScales;
    assert WrongScalePrefix + "0.3" == "RSD message. Wrong distance scale value: 0.3";
  }

  lemma RsdWrongScaleTokens()
    ensures Tokens(RsdWrongScaleSample) == Success(RsdWrongScaleFields)
  {
    var t := RsdWrongScaleFields;
    assert forall k :: 0 <= k < |t| ==> IsField(t[k]);
    DecodeSentence(Numerics(_ => None, _ => None, _ => ""), t, "20");
  }

  lemma RsdWrongScaleFieldsDecode(N: Numerics)
    requires N.parseDouble("14.0") == Some(Finite(14.0)) && N.parseDouble("0.0") == Some(Finite(0.0))
    requires N.parseDouble("96.9") == Some(Finite(96.9)) && N.parseDouble("306.4") == Some(Finite(306.4))
    requires N.parseDouble("97.7") == Some(Finite(97.7)) && N.parseDouble("11.6") == Some(Finite(11.6))
    requires N.parseDouble("0.3") == Some(Finite(0.3))
    ensures DecodeRSD(N, RsdWrongScaleFields) == Success(RadarSystemDataMessage(
      Finite(14.0), Finite(0.0), Finite(96.9), Finite(306.4), Finite(97.7), Finite(11.6), Finite(0.3),
      "K", "N", "S"))
  {
    var t := RsdWrongScaleFields;
    assert t[1] == "14.0" && t[2] == "0.0" && t[3] == "96.9" && t[4] == "306.4";
    assert t[9] == "97.7" && t[10] == "11.6" && t[11] == "0.3";
    RsdDecodesTo(N, t, RadarSystemDataMessage(
      Finite(14.0), Finite(0.0), Finite(96.9), Finite(306.4), Finite(97.7), Finite(11.6), Finite(0.3),
      "K", "N", "S"));
  }

  const VhwSampleFields: seq<string> := ["VHW", "115.6", "T", "", "", "46.0", "N", "", ""]

  /** $RAVHW,115.6,T,,,46.0,N,,*71 */
  const VhwSample := Sentence(VhwSampleFields, "71")

  /** A VHW sentence is of no type the converter knows: nothing is emitted and nothing is parsed. */
  lemma VhwSampleIsIgnored(N: Numerics)
    ensures Decode(N, VhwSample) == Success([])
  {
    VhwSampleType();
  }

  lemma VhwSampleType()
    ensures Tokens(VhwSample).Success? && |Tokens(VhwSample).value| >= 1 && Tokens(VhwSample).value[0] == "VHW"
  {
    var t := VhwSampleFields;
    assert forall k :: 0 <= k < |t| ==> IsField(t[k]);
    SentenceTokens(t, "71");
  }

  const RsdaSampleFields: seq<string> := ["RSDA", "115.6", "T", "", "", "46.0", "N", "", ""]

  /** $RARSDA,115.6,T,,,46.0,N,,*71 */
  const RsdaSample := Sentence(RsdaSampleFields, "71")

  /** A type that merely starts with RSD is not RSD: nothing is emitted. */
  lemma RsdaSampleIsIgnored(N: Numerics)
    ensures Decode(N, RsdaSample) == Success([])
  {
    RsdaSampleType();
  }

  lemma RsdaSampleType()
    ensures Tokens(RsdaSample).Success? && |Tokens(RsdaSample).value| >= 1 && Tokens(RsdaSample).value[0] == "RSDA"
  {
    var t := RsdaSampleFields;
    assert forall k :: 0 <= k < |t| ==> IsField(t[k]);
    SentenceTokens(t, "71");
  }
}
