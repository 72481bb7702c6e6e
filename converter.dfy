/**
  The MR-231-3 sentence converter: one line `$RA<tag>,<fields...>*<checksum>`
  in, a list of zero or one decoded message out, or an exception.

  The pure functions below state what a conversion yields; the class
  Mr231_3Converter keeps the converter's two instance fields and its
  methods update and read them as the converter does, each proved to
  agree with those functions.
 */
module Mr231_3 {
  import opened Wrappers
  import opened JavaText
  import opened SearadarApi

  /**
    The library routines the converter calls on numbers: Integer.parseInt,
    Double.parseDouble (None where they throw NumberFormatException) and the
    text a double becomes when concatenated to a string.
   */
  datatype Numerics = Numerics(
    parseInt: string -> Option<int32>,
    parseDouble: string -> Option<Double>,
    doubleToString: Double -> string)

  /** The exceptions a conversion can end with. */
  datatype Fault =
    | StringIndexOutOfBounds(begin: int, end: int)
    | ArrayIndexOutOfBounds(index: int)
    | NumberFormat(token: string)

  /** The legal range-scale settings, in the converter's order. */
  const DistanceScale: seq<Double> := [
    Finite(0.125), Finite(0.25), Finite(0.5), Finite(1.5), Finite(3.0),
    Finite(6.0), Finite(12.0), Finite(24.0), Finite(48.0), Finite(96.0)]

  /** The same settings as a set of real numbers. */
  const AllowedScales: set<real> := {0.125, 0.25, 0.5, 1.5, 3.0, 6.0, 12.0, 24.0, 48.0, 96.0}

  /** The two forms of the table hold the same values. */
  lemma ScaleTablesAgree(d: Double)
    ensures d in DistanceScale <==> d.Finite? && d.value in AllowedScales
  {
  }

  const WrongScalePrefix := "RSD message. Wrong distance scale value: "

  // -----------------------------------------------------------------------
  // Tokenising (readFields)

  /** String.substring(begin, end), which throws unless 0 <= begin <= end <= length. */
  function Substring(s: string, begin: int, end: int): (r: Result<string, Fault>)
    ensures r.Success? <==> 0 <= begin <= end <= |s|
    ensures r.Failure? ==> r.error == StringIndexOutOfBounds(begin, end)
    ensures r.Success? ==> |r.value| == end - begin && forall k :: 0 <= k < |r.value| ==> r.value[k] == s[begin + k]
  {
    if 0 <= begin <= end <= |s| then Success(s[begin..end]) else Failure(StringIndexOutOfBounds(begin, end))
  }

  /**
    The token list of a sentence: the text after the three-character
    preamble and before the first `*`, trimmed, split at commas. It fails
    exactly when the first `*` is missing or sits inside the preamble.
   */
  function Tokens(msg: string): (r: Result<seq<string>, Fault>)
    ensures r.Success? <==> '*' in msg && IndexOf(msg, '*') >= 3
    ensures r.Failure? ==> r.error == StringIndexOutOfBounds(3, IndexOf(msg, '*'))
  {
    var temp :- Substring(msg, 3, IndexOf(msg, '*'));
    Success(Split(Trim(temp), ','))
  }

  /** The message type: the first token, read from an array that may be empty. */
  function MessageType(fields: seq<string>): (r: Result<string, Fault>)
    ensures r.Success? <==> |fields| > 0
    ensures r.Success? ==> r.value == fields[0]
    ensures r.Failure? ==> r.error == ArrayIndexOutOfBounds(0)
  {
    if |fields| == 0 then Failure(ArrayIndexOutOfBounds(0)) else Success(fields[0])
  }

  // -----------------------------------------------------------------------
  // Code tables

  /** Identity code of a TTM sentence; every code other than b and p is Unknown. */
  function IffCode(token: string): (r: Iff)
    ensures r == Friend <==> token == "b"
    ensures r == Foe <==> token == "p"
    ensures r == Iff.Unknown <==> token != "b" && token != "p"
  {
    match token
    case "b" => Friend
    case "p" => Foe
    case _ => Iff.Unknown
  }

  /** Status code of a TTM sentence; every code other than L and T means unreliable data. */
  function StatusCode(token: string): (r: TargetStatus)
    ensures r == Lost <==> token == "L"
    ensures r == Tracked <==> token == "T"
    ensures r == UnreliableData <==> token != "L" && token != "T"
  {
    match token
    case "L" => Lost
    case "T" => Tracked
    case _ => UnreliableData
  }

  // -----------------------------------------------------------------------
  // Field access, each step of which may throw

  function TokenAt(fields: seq<string>, i: nat): (r: Result<string, Fault>)
    ensures r.Success? <==> i < |fields|
    ensures r.Success? ==> r.value == fields[i]
    ensures r.Failure? ==> r.error == ArrayIndexOutOfBounds(i)
  {
    if i < |fields| then Success(fields[i]) else Failure(ArrayIndexOutOfBounds(i))
  }

  function IntAt(N: Numerics, fields: seq<string>, i: nat): (r: Result<int32, Fault>)
    ensures r.Success? <==> i < |fields| && N.parseInt(fields[i]).Some?
    ensures r.Success? ==> r.value == N.parseInt(fields[i]).value
    ensures r.Failure? ==> r.error == if i < |fields| then NumberFormat(fields[i]) else ArrayIndexOutOfBounds(i)
  {
    var token :- TokenAt(fields, i);
    match N.parseInt(token)
    case None => Failure(NumberFormat(token))
    case Some(n) => Success(n)
  }

  function DoubleAt(N: Numerics, fields: seq<string>, i: nat): (r: Result<Double, Fault>)
    ensures r.Success? <==> i < |fields| && N.parseDouble(fields[i]).Some?
    ensures r.Success? ==> r.value == N.parseDouble(fields[i]).value
    ensures r.Failure? ==> r.error == if i < |fields| then NumberFormat(fields[i]) else ArrayIndexOutOfBounds(i)
  {
    var token :- TokenAt(fields, i);
    match N.parseDouble(token)
    case None => Failure(NumberFormat(token))
    case Some(d) => Success(d)
  }

  predicate ParsesInt(N: Numerics, token: string) {
    N.parseInt(token).Some?
  }

  predicate ParsesDouble(N: Numerics, token: string) {
    N.parseDouble(token).Some?
  }

  // -----------------------------------------------------------------------
  // Records (getTTM, getRSD), in the order the converter touches the tokens

  /**
    The tracked-target report of a TTM token list: tokens 11 and 12 are
    read first (identity and status codes), then token 1 as an integer and
    tokens 2, 3, 5 and 6 as doubles. It is built exactly when the list has
    13 tokens or more and those five tokens parse.
   */
  function DecodeTTM(N: Numerics, fields: seq<string>): (r: Result<TrackedTargetMessage, Fault>)
    ensures r.Success? <==>
      |fields| >= 13 && ParsesInt(N, fields[1]) && ParsesDouble(N, fields[2]) &&
      ParsesDouble(N, fields[3]) && ParsesDouble(N, fields[5]) && ParsesDouble(N, fields[6])
    ensures r.Success? ==> r.value == TrackedTargetMessage(
      N.parseInt(fields[1]).value,
      N.parseDouble(fields[2]).value, N.parseDouble(fields[3]).value,
      N.parseDouble(fields[5]).value, N.parseDouble(fields[6]).value,
      StatusCode(fields[12]), IffCode(fields[11]), TargetType.Unknown)
  {
    var iffToken :- TokenAt(fields, 11);
    var statusToken :- TokenAt(fields, 12);
    var targetNumber :- IntAt(N, fields, 1);
    var distance :- DoubleAt(N, fields, 2);
    var bearing :- DoubleAt(N, fields, 3);
    var speed :- DoubleAt(N, fields, 5);
    var course :- DoubleAt(N, fields, 6);
    Success(TrackedTargetMessage(
      targetNumber, distance, bearing, speed, course,
      StatusCode(statusToken), IffCode(iffToken), TargetType.Unknown))
  }

  /**
    The radar-system-data report of an RSD token list: tokens 1, 2, 3, 4,
    9, 10 and 11 as doubles (11 is the range scale), then tokens 12, 13
    and 14 verbatim. It is built exactly when the list has 15 tokens or
    more and those seven tokens parse.
   */
  function DecodeRSD(N: Numerics, fields: seq<string>): (r: Result<RadarSystemDataMessage, Fault>)
    ensures r.Success? <==>
      |fields| >= 15 &&
      ParsesDouble(N, fields[1]) && ParsesDouble(N, fields[2]) && ParsesDouble(N, fields[3]) &&
      ParsesDouble(N, fields[4]) && ParsesDouble(N, fields[9]) && ParsesDouble(N, fields[10]) &&
      ParsesDouble(N, fields[11])
    ensures r.Success? ==> r.value == RadarSystemDataMessage(
      N.parseDouble(fields[1]).value, N.parseDouble(fields[2]).value,
      N.parseDouble(fields[3]).value, N.parseDouble(fields[4]).value,
      N.parseDouble(fields[9]).value, N.parseDouble(fields[10]).value,
      N.parseDouble(fields[11]).value,
      fields[12], fields[13], fields[14])
  {
    var initialDistance :- DoubleAt(N, fields, 1);
    var initialBearing :- DoubleAt(N, fields, 2);
    var movingCircleOfDistance :- DoubleAt(N, fields, 3);
    var bearing :- DoubleAt(N, fields, 4);
    var distanceFromShip :- DoubleAt(N, fields, 9);
    var bearing2 :- DoubleAt(N, fields, 10);
    var distanceScale :- DoubleAt(N, fields, 11);
    var distanceUnit :- TokenAt(fields, 12);
    var displayOrientation :- TokenAt(fields, 13);
    var workingMode :- TokenAt(fields, 14);
    Success(RadarSystemDataMessage(
      initialDistance, initialBearing, movingCircleOfDistance, bearing,
      distanceFromShip, bearing2, distanceScale,
      distanceUnit, displayOrientation, workingMode))
  }

  // -----------------------------------------------------------------------
  // Validation (checkRSD)

  /**
    None (the converter's null) when the range scale is one of the ten
    legal settings, compared exactly; otherwise a diagnostic naming the
    offending value.
   */
  function CheckRSD(N: Numerics, rsd: RadarSystemDataMessage): (r: Option<InvalidMessage>)
    ensures r.None? <==> rsd.distanceScale.Finite? && rsd.distanceScale.value in AllowedScales
    ensures r.Some? ==> r.value.infoMsg == WrongScalePrefix + N.doubleToString(rsd.distanceScale)
  {
    if rsd.distanceScale !in DistanceScale then
      Some(InvalidMessage(WrongScalePrefix + N.doubleToString(rsd.distanceScale)))
    else
      None
  }

  /** What an RSD sentence that decoded emits: the report, or its diagnostic. */
  function Validated(N: Numerics, rsd: RadarSystemDataMessage): (r: SearadarStationMessage)
    ensures r == RadarSystemData(rsd) <==>
      rsd.distanceScale.Finite? && rsd.distanceScale.value in AllowedScales
    ensures r != RadarSystemData(rsd) ==>
      r == Invalid(InvalidMessage(WrongScalePrefix + N.doubleToString(rsd.distanceScale)))
  {
    match CheckRSD(N, rsd)
    case None => RadarSystemData(rsd)
    case Some(invalid) => Invalid(invalid)
  }

  // -----------------------------------------------------------------------
  // Dispatch (convert)

  /**
    The messages of a token list: one tracked-target report for TTM, one
    radar-system-data report or its diagnostic for RSD, none for any other
    type. A list with no tokens at all fails when its first is read.
   */
  function DecodeFields(N: Numerics, fields: seq<string>): (r: Result<seq<SearadarStationMessage>, Fault>)
    ensures r.Success? ==> |r.value| <= 1
    ensures r.Success? && |r.value| == 1 ==>
      |fields| > 0 &&
      ((fields[0] == "TTM" && r.value[0].TrackedTarget?) ||
       (fields[0] == "RSD" && (r.value[0].RadarSystemData? || r.value[0].Invalid?)))
    ensures |fields| > 0 && fields[0] != "TTM" && fields[0] != "RSD" ==> r == Success([])
    ensures |fields| > 0 && fields[0] == "TTM" ==> (r.Success? <==> DecodeTTM(N, fields).Success?)
    ensures |fields| > 0 && fields[0] == "RSD" ==> (r.Success? <==> DecodeRSD(N, fields).Success?)
    ensures |fields| > 0 && (fields[0] == "TTM" || fields[0] == "RSD") && r.Success? ==> |r.value| == 1
    ensures |fields| > 0 && fields[0] == "RSD" && r.Success? ==>
      (r.value[0].RadarSystemData? <==> DecodeRSD(N, fields).value.distanceScale in DistanceScale)
    ensures |fields| == 0 ==> r == Failure(ArrayIndexOutOfBounds(0))
    ensures |fields| > 0 && fields[0] == "TTM" && r.Success? ==>
      r.value == [TrackedTarget(DecodeTTM(N, fields).value)]
    ensures |fields| > 0 && fields[0] == "TTM" && r.Failure? ==> r.error == DecodeTTM(N, fields).error
    ensures |fields| > 0 && fields[0] == "RSD" && r.Success? ==>
      r.value == [Validated(N, DecodeRSD(N, fields).value)]
    ensures |fields| > 0 && fields[0] == "RSD" && r.Failure? ==> r.error == DecodeRSD(N, fields).error
  {
    var msgType :- MessageType(fields);
    match msgType
    case "TTM" =>
      var ttm :- DecodeTTM(N, fields);
      Success([TrackedTarget(ttm)])
    case "RSD" =>
      var rsd :- DecodeRSD(N, fields);
      Success([Validated(N, rsd)])
    case _ =>
      Success([])
  }

  /** The whole conversion of one sentence. */
  function Decode(N: Numerics, message: string): (r: Result<seq<SearadarStationMessage>, Fault>)
    ensures r.Success? ==> |r.value| <= 1
    ensures '*' !in message ==> r == Failure(StringIndexOutOfBounds(3, -1))
  {
    var fields :- Tokens(message);
    DecodeFields(N, fields)
  }

  /** Once the sentence is framed, its messages are those of its tokens. */
  lemma DecodeReadsTokens(N: Numerics, message: string)
    requires Tokens(message).Success?
    ensures Decode(N, message) == DecodeFields(N, Tokens(message).value)
  {
  }

  // -----------------------------------------------------------------------
  // The converter object

  /**
    The converter keeps the token list and the message type of the last
    sentence it read in two fields; `numerics` is the number library it
    calls.
   */
  class Mr231_3Converter {
    const numerics: Numerics
    var fields: seq<string>
    var msgType: string

    constructor (numerics: Numerics)
      ensures this.numerics == numerics
      ensures fields == [] && msgType == ""
    {
      this.numerics := numerics;
      fields := [];
      msgType := "";
    }

    /**
      Reads a sentence into `fields` and `msgType`. When the substring
      throws, neither changes; when the split gives no token at all, the
      empty list is stored and reading its first element throws.
     */
    method ReadFields(msg: string) returns (fault: Option<Fault>)
      modifies this
      ensures Tokens(msg).Failure? ==>
        fault == Some(Tokens(msg).error) && fields == old(fields) && msgType == old(msgType)
      ensures Tokens(msg).Success? ==> fields == Tokens(msg).value
      ensures Tokens(msg).Success? && fields == [] ==>
        fault == Some(ArrayIndexOutOfBounds(0)) && msgType == old(msgType)
      ensures Tokens(msg).Success? && fields != [] ==> fault == None && msgType == fields[0]
    {
      var temp := Substring(msg, 3, IndexOf(msg, '*'));
      if temp.Failure? {
        return Some(temp.error);
      }
      fields := Split(Trim(temp.value), ',');
      assert Tokens(msg) == Success(fields);
      if |fields| == 0 {
        return Some(ArrayIndexOutOfBounds(0));
      }
      msgType := fields[0];
      return None;
    }

    /**
      Builds the tracked-target report from `fields`: both codes start at
      their default and are overwritten only by a recognised code.
     */
    method GetTTM() returns (r: Result<TrackedTargetMessage, Fault>)
      ensures r == DecodeTTM(numerics, fields)
    {
      var status := UnreliableData;
      var iff := Iff.Unknown;
      var targetType := TargetType.Unknown;

      if |fields| <= 11 {
        return Failure(ArrayIndexOutOfBounds(11));
      }
      match fields[11] {
        case "b" => iff := Friend;
        case "p" => iff := Foe;
        case "d" => iff := Iff.Unknown;
        case _ =>
      }

      if |fields| <= 12 {
        return Failure(ArrayIndexOutOfBounds(12));
      }
      match fields[12] {
        case "L" => status := Lost;
        case "Q" => status := UnreliableData;
        case "T" => status := Tracked;
        case _ =>
      }

      var targetNumber := numerics.parseInt(fields[1]);
      if targetNumber.None? {
        return Failure(NumberFormat(fields[1]));
      }
      var distance := numerics.parseDouble(fields[2]);
      if distance.None? {
        return Failure(NumberFormat(fields[2]));
      }
      var bearing := numerics.parseDouble(fields[3]);
      if bearing.None? {
        return Failure(NumberFormat(fields[3]));
      }
      var speed := numerics.parseDouble(fields[5]);
      if speed.None? {
        return Failure(NumberFormat(fields[5]));
      }
      var course := numerics.parseDouble(fields[6]);
      if course.None? {
        return Failure(NumberFormat(fields[6]));
      }
      return Success(TrackedTargetMessage(
        targetNumber.value, distance.value, bearing.value, speed.value, course.value,
        status, iff, targetType));
    }

    /** Reads the double at `fields[i]`, throwing as the array access or the parse would. */
    method ParseDoubleAt(i: nat) returns (r: Result<Double, Fault>)
      ensures r == DoubleAt(numerics, fields, i)
    {
      if i >= |fields| {
        return Failure(ArrayIndexOutOfBounds(i));
      }
      var d := numerics.parseDouble(fields[i]);
      if d.None? {
        return Failure(NumberFormat(fields[i]));
      }
      return Success(d.value);
    }

    /** Builds the radar-system-data report from `fields`. */
    method GetRSD() returns (r: Result<RadarSystemDataMessage, Fault>)
      ensures r == DecodeRSD(numerics, fields)
    {
      var initialDistance := ParseDoubleAt(1);
      if initialDistance.Failure? { return Failure(initialDistance.error); }
      var initialBearing := ParseDoubleAt(2);
      if initialBearing.Failure? { return Failure(initialBearing.error); }
      var movingCircleOfDistance := ParseDoubleAt(3);
      if movingCircleOfDistance.Failure? { return Failure(movingCircleOfDistance.error); }
      var bearing := ParseDoubleAt(4);
      if bearing.Failure? { return Failure(bearing.error); }
      var distanceFromShip := ParseDoubleAt(9);
      if distanceFromShip.Failure? { return Failure(distanceFromShip.error); }
      var bearing2 := ParseDoubleAt(10);
      if bearing2.Failure? { return Failure(bearing2.error); }
      var distanceScale := ParseDoubleAt(11);
      if distanceScale.Failure? { return Failure(distanceScale.error); }
      if |fields| <= 12 { return Failure(ArrayIndexOutOfBounds(12)); }
      if |fields| <= 13 { return Failure(ArrayIndexOutOfBounds(13)); }
      if |fields| <= 14 { return Failure(ArrayIndexOutOfBounds(14)); }
      return Success(RadarSystemDataMessage(
        initialDistance.value, initialBearing.value, movingCircleOfDistance.value, bearing.value,
        distanceFromShip.value, bearing2.value, distanceScale.value,
        fields[12], fields[13], fields[14]));
    }

    /**
      Converts one sentence: reads it into the fields, then switches on its
      type (Dispatch). The result and the new state are those of Decode
      and Tokens.
     */
    method Convert(message: string) returns (r: Result<seq<SearadarStationMessage>, Fault>)
      modifies this
      ensures r == Decode(numerics, message)
      ensures Tokens(message).Failure? ==> fields == old(fields) && msgType == old(msgType)
      ensures Tokens(message).Success? ==> fields == Tokens(message).value
      ensures fields != [] && Tokens(message).Success? ==> msgType == fields[0]
      ensures fields == [] && Tokens(message).Success? ==> msgType == old(msgType)
    {
      var fault := ReadFields(message);
      if fault.Some? {
        return Failure(fault.value);
      }
      DecodeReadsTokens(numerics, message);
      r := Dispatch();
    }

    /**
      The switch on the message type in convert: appends to a fresh list
      the report the type calls for, or the diagnostic that replaces an
      RSD report with an illegal range scale; other types add nothing.
     */
    method Dispatch() returns (r: Result<seq<SearadarStationMessage>, Fault>)
      requires fields != [] && msgType == fields[0]
      ensures r == DecodeFields(numerics, fields)
    {
      var msgList: seq<SearadarStationMessage> := [];
      match msgType {
        case "TTM" =>
          var ttm := GetTTM();
          if ttm.Failure? {
            return Failure(ttm.error);
          }
          msgList := msgList + [TrackedTarget(ttm.value)];
          assert msgList == DecodeFields(numerics, fields).value;
        case "RSD" =>
          var rsd := GetRSD();
          if rsd.Failure? {
            return Failure(rsd.error);
          }
          var invalidRSD := CheckRSD(numerics, rsd.value);
          if invalidRSD.None? {
            msgList := msgList + [RadarSystemData(rsd.value)];
          } else {
            msgList := msgList + [Invalid(invalidRSD.value)];
          }
          assert msgList == [Validated(numerics, rsd.value)];
        case _ =>
      }
      return Success(msgList);
    }
  }
}
